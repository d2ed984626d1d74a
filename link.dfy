/** The instrument connection, a pyvisa resource seen only through `write`
    and `query`.  Which calls raise and what the instrument answers are
    oracles fixed when the link is opened, indexed by how many writes or
    queries came before, so a specification can say what happens for every
    possible behaviour of the instrument. */
module Link {
  import opened Wrappers

  class Instrument {
    /** Every command passed to `write`, in order, including those that raised. */
    var written: seq<string>
    /** Every command passed to `query`, in order, including those that raised. */
    var queried: seq<string>
    /** `writeFails(n, cmd)` holds when the write made after `n` earlier writes raises. */
    const writeFails: (nat, string) -> bool
    /** `answer(n, q)` is the response to the query made after `n` earlier
        queries, or `None` when that query raises. */
    const answer: (nat, string) -> Option<string>

    constructor(writeFails: (nat, string) -> bool, answer: (nat, string) -> Option<string>)
      ensures written == [] && queried == []
      ensures this.writeFails == writeFails && this.answer == answer
    {
      written := [];
      queried := [];
      this.writeFails := writeFails;
      this.answer := answer;
    }

    /** `upv.write(cmd)`; `ok` is false when it raised. */
    method Write(cmd: string) returns (ok: bool)
      modifies this
      ensures written == old(written) + [cmd]
      ensures queried == old(queried)
      ensures ok == !writeFails(|old(written)|, cmd)
    {
      ok := !writeFails(|written|, cmd);
      written := written + [cmd];
    }

    /** `upv.query(q)`; `None` when it raised. */
    method Query(q: string) returns (r: Option<string>)
      modifies this
      ensures queried == old(queried) + [q]
      ensures written == old(written)
      ensures r == answer(|old(queried)|, q)
    {
      r := answer(|queried|, q);
      queried := queried + [q];
    }
  }
}
