/** The shallow structural check of a schema document loaded from YAML or
    JSON. */
module Validators {
  import opened Values

  const NotAMapping := "Schema must be a mapping (dict)."
  const TypeWord := "'type'"
  const MissingType := "Schema must include " + TypeWord + " (e.g. 'people' or 'ecommerce')."
  const FieldsNotAList := "The 'fields' field must be a list of definitions."
  const Accepted := "OK"

  /** The invariant every schema keeps: a mapping that has a `type`, and
      whose `fields`, when present, is a list. */
  predicate WellFormed(doc: Value)
  {
    && doc.VMap?
    && "type" in doc.entries
    && ("fields" in doc.entries ==> doc.entries["fields"].VList?)
  }

  predicate Contains(s: string, sub: string)
  {
    exists i :: 0 <= i <= |s| && sub <= s[i..]
  }

  /** `validate_schema(doc)`, which returns `(ok, message)`. The checks run
      in order (mapping, then `type`, then `fields`), so the message names
      the first defect. */
  function ValidateSchema(doc: Value): (r: (bool, string))
    ensures r.0 <==> WellFormed(doc)
    ensures r.0 <==> r.1 == Accepted
    ensures !doc.VMap? ==> r.1 == NotAMapping
    ensures doc.VMap? && "type" !in doc.entries ==> r.1 == MissingType && Contains(r.1, TypeWord)
    ensures doc.VMap? && "type" in doc.entries && !r.0 ==> r.1 == FieldsNotAList
  {
    if !doc.VMap? then
      (false, NotAMapping)
    else if "type" !in doc.entries then
      var head := "Schema must include ";
      assert MissingType[|head|..] == TypeWord + " (e.g. 'people' or 'ecommerce').";
      (false, MissingType)
    else if "fields" in doc.entries && !doc.entries["fields"].VList? then
      (false, FieldsNotAList)
    else
      (true, Accepted)
  }

  /** What a `fields` list holds is not inspected: replacing the list by any
      other list leaves the verdict unchanged. */
  lemma FieldsContentsIgnored(m: map<string, Value>, xs: seq<Value>, ys: seq<Value>)
    ensures ValidateSchema(VMap(m["fields" := VList(xs)])) == ValidateSchema(VMap(m["fields" := VList(ys)]))
  {
  }

  /** The document of the invalid-schema test: `fields` without `type`. */
  lemma RejectsFieldsWithoutType()
    ensures ValidateSchema(VMap(map["fields" := VList([VMap(map["name" := VStr("foo"), "type" := VStr("bar")])])]))
            == (false, MissingType)
  {
  }
}
