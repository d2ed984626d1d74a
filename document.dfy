/** The settings document, `settings.json` decoded: top-level keys map to a
    section object (label to value) or to a single scalar such as a raw
    command's argument. */
module Document {
  import opened Dicts

  /** A scalar is kept as the text Python's `str()` and f-strings would give
      it. */
  datatype Value = Leaf(text: string) | Group(fields: Dict<string>)

  type Doc = Dict<Value>

  /** Every object in the document holds one value per key. */
  predicate WellFormed(d: Doc) {
    d.Shaped() && forall i :: 0 <= i < |d.vals| && d.vals[i].Group? ==> d.vals[i].fields.Shaped()
  }
}
