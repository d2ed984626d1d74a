/** Finding the analyzer among the VISA resources, and the small JSON file
    that remembers its address (`find_upv_ip`, `save_config`, `load_config`
    in both `upv_auto_config.py` files). */
module Discovery {
  import opened Wrappers
  import opened Text

  /** The resource list of a pyvisa resource manager.  `idn(i, res)` is the
      stripped-before-use reply to `*IDN?` of the `i`-th listed resource, or
      `None` when opening it or querying it raises. */
  class ResourceManager {
    const resources: seq<string>
    const idn: (nat, string) -> Option<string>
    /** The positions of the resources opened and queried so far, in order. */
    var probed: seq<nat>

    constructor(resources: seq<string>, idn: (nat, string) -> Option<string>)
      ensures this.resources == resources && this.idn == idn && probed == []
    {
      this.resources := resources;
      this.idn := idn;
      probed := [];
    }

    /** `rm.open_resource(res).query("*IDN?")` for the `i`-th resource. */
    method Probe(i: nat) returns (reply: Option<string>)
      requires i < |resources|
      modifies this
      ensures probed == old(probed) + [i]
      ensures reply == idn(i, resources[i])
    {
      reply := idn(i, resources[i]);
      probed := probed + [i];
    }
  }

  /** `config.json`: the saved address, or `None` when the file is absent or
      has no `visa_address` key. */
  class ConfigFile {
    var visaAddress: Option<string>

    constructor(visaAddress: Option<string>)
      ensures this.visaAddress == visaAddress
    {
      this.visaAddress := visaAddress;
    }

    /** `save_config(visa_address)`. */
    method Save(address: string)
      modifies this
      ensures visaAddress == Some(address)
    {
      visaAddress := Some(address);
    }

    /** `load_config()`. */
    method Load() returns (address: Option<string>)
      ensures address == visaAddress
    {
      address := visaAddress;
    }
  }

  /** `"UPV" in inst.query("*IDN?").strip()`, false when the probe raised. */
  predicate IsUpv(reply: Option<string>) {
    reply.Some? && Contains(Strip(reply.value), "UPV")
  }

  /** The position of the first resource, at `k` or later, that answers as
      a UPV. */
  function FirstUpv(resources: seq<string>, idn: (nat, string) -> Option<string>, k: nat): (r: Option<nat>)
    requires k <= |resources|
    ensures r.Some? ==> k <= r.value < |resources|
    decreases |resources| - k
  {
    if k == |resources| then None
    else if IsUpv(idn(k, resources[k])) then Some(k)
    else FirstUpv(resources, idn, k + 1)
  }

  /** What `FirstUpv` finds is a UPV, and no resource between `k` and it is. */
  lemma {:induction false} FirstUpvFound(resources: seq<string>, idn: (nat, string) -> Option<string>, k: nat, r: nat)
    requires k <= |resources| && FirstUpv(resources, idn, k) == Some(r)
    ensures r < |resources| && IsUpv(idn(r, resources[r]))
    ensures forall i :: k <= i < r ==> !IsUpv(idn(i, resources[i]))
    decreases |resources| - k
  {
    if r != k {
      var here := IsUpv(idn(k, resources[k]));
      assert !here;
      FirstUpvFound(resources, idn, k + 1, r);
      forall i | k <= i < r ensures !IsUpv(idn(i, resources[i])) {
        if i == k {
          assert !here;
        }
      }
    }
  }

  /** `FirstUpv` finds nothing exactly when no resource from `k` on is a UPV. */
  lemma {:induction false} FirstUpvNone(resources: seq<string>, idn: (nat, string) -> Option<string>, k: nat)
    requires k <= |resources|
    ensures FirstUpv(resources, idn, k).None? <==> forall i :: k <= i < |resources| ==> !IsUpv(idn(i, resources[i]))
    decreases |resources| - k
  {
    if k < |resources| {
      if IsUpv(idn(k, resources[k])) {
        assert FirstUpv(resources, idn, k) == Some(k);
      } else {
        FirstUpvNone(resources, idn, k + 1);
      }
    }
  }

  /** The resource `FirstUpv` points at. */
  function FoundAddress(resources: seq<string>, idn: (nat, string) -> Option<string>): (r: Option<string>)
    ensures r.Some? ==> r.value in resources
    ensures r.None? <==> FirstUpv(resources, idn, 0).None?
  {
    match FirstUpv(resources, idn, 0)
    case None => None
    case Some(i) => Some(resources[i])
  }

  /** The positions `0, 1, …, n - 1`. */
  function Upto(n: nat): (s: seq<nat>)
    ensures |s| == n && forall i :: 0 <= i < n ==> s[i] == i
  {
    if n == 0 then [] else Upto(n - 1) + [n - 1]
  }

  /** One more probe extends the probed positions by one. */
  lemma UptoNext(p: seq<nat>, i: nat)
    ensures p + Upto(i) + [i] == p + Upto(i + 1)
  {
    var k := i + 1;
    assert Upto(k) == Upto(k - 1) + [k - 1];
    assert p + Upto(i) + [i] == p + (Upto(i) + [i]);
  }

  /** `find_upv_ip()` of the top-level script: the resources are probed in
      order and the scan stops at the first UPV, which is saved and
      returned; a probe that raises is passed over. */
  method FindUpvIp(rm: ResourceManager, config: ConfigFile) returns (address: Option<string>)
    modifies rm, config
    ensures address == FoundAddress(rm.resources, rm.idn)
    ensures rm.probed == old(rm.probed) + Upto(match FirstUpv(rm.resources, rm.idn, 0) case None => |rm.resources| case Some(i) => i + 1)
    ensures config.visaAddress == if address.Some? then address else old(config.visaAddress)
  {
    address := None;
    var i: nat := 0;
    while i < |rm.resources| && address.None?
      invariant 0 <= i <= |rm.resources|
      invariant rm.probed == old(rm.probed) + Upto(i)
      invariant address.None? ==> FirstUpv(rm.resources, rm.idn, 0) == FirstUpv(rm.resources, rm.idn, i)
      invariant address.None? ==> config.visaAddress == old(config.visaAddress)
      invariant address.Some? ==> 0 < i && FirstUpv(rm.resources, rm.idn, 0) == Some(i - 1)
      invariant address.Some? ==> address == Some(rm.resources[i - 1]) && config.visaAddress == address
    {
      var reply := rm.Probe(i);
      UptoNext(old(rm.probed), i);
      if IsUpv(reply) {
        assert FirstUpv(rm.resources, rm.idn, i) == Some(i);
        config.Save(rm.resources[i]);
        address := Some(rm.resources[i]);
      }
      i := i + 1;
    }
  }

  /** `find_upv_ip()` of the GUI package: every resource is probed, the
      UPVs are collected in `found`, and the first of them is saved and
      returned. */
  method ScanForUpv(rm: ResourceManager, config: ConfigFile) returns (address: Option<string>)
    modifies rm, config
    ensures address == FoundAddress(rm.resources, rm.idn)
    ensures rm.probed == old(rm.probed) + Upto(|rm.resources|)
    ensures config.visaAddress == if address.Some? then address else old(config.visaAddress)
  {
    var found: seq<string> := [];
    ghost var first: nat := 0;
    var i: nat := 0;
    while i < |rm.resources|
      invariant 0 <= i <= |rm.resources|
      invariant rm.probed == old(rm.probed) + Upto(i)
      invariant found == [] ==> FirstUpv(rm.resources, rm.idn, 0) == FirstUpv(rm.resources, rm.idn, i)
      invariant found != [] ==> first < i && found[0] == rm.resources[first] && FirstUpv(rm.resources, rm.idn, 0) == Some(first)
      invariant config.visaAddress == old(config.visaAddress)
    {
      found, first := ScanStep(rm, i, old(rm.probed), found, first);
      i := i + 1;
    }
    ghost var r := FirstUpv(rm.resources, rm.idn, 0);
    if found != [] {
      assert r == Some(first);
      config.Save(found[0]);
      address := Some(found[0]);
    } else {
      assert r == FirstUpv(rm.resources, rm.idn, |rm.resources|) == None;
      address := None;
    }
  }

  /** One turn of the GUI scan: the `i`-th resource is probed and, if it is
      a UPV, appended to `found`. */
  method ScanStep(rm: ResourceManager, i: nat, ghost p0: seq<nat>, found: seq<string>, ghost first: nat)
    returns (found': seq<string>, ghost first': nat)
    requires i < |rm.resources|
    requires rm.probed == p0 + Upto(i)
    requires found == [] ==> FirstUpv(rm.resources, rm.idn, 0) == FirstUpv(rm.resources, rm.idn, i)
    requires found != [] ==> first < i && found[0] == rm.resources[first] && FirstUpv(rm.resources, rm.idn, 0) == Some(first)
    modifies rm
    ensures rm.probed == p0 + Upto(i + 1)
    ensures found' == [] ==> FirstUpv(rm.resources, rm.idn, 0) == FirstUpv(rm.resources, rm.idn, i + 1)
    ensures found' != [] ==> first' < i + 1 && found'[0] == rm.resources[first'] && FirstUpv(rm.resources, rm.idn, 0) == Some(first')
  {
    var reply := rm.Probe(i);
    UptoNext(p0, i);
    FirstUpvStep(rm.resources, rm.idn, i);
    found', first' := found, first;
    if IsUpv(reply) {
      if found == [] {
        first' := i;
      }
      found' := found + [rm.resources[i]];
    }
  }

  lemma FirstUpvStep(resources: seq<string>, idn: (nat, string) -> Option<string>, i: nat)
    requires i < |resources|
    ensures FirstUpv(resources, idn, i) == if IsUpv(idn(i, resources[i])) then Some(i) else FirstUpv(resources, idn, i + 1)
  {
  }
}
