/** Form state shared by the pages: a draft record is a plain object of
    string fields, updated with `{ ...prev, [field]: value }`. */
module Forms {

  /** An object of string fields; a key that is absent is `undefined`. */
  type Draft = map<string, string>

  /** `!!draft[key]`: present and not the empty string. */
  predicate Filled(d: Draft, key: string) {
    key in d && d[key] != ""
  }

  /** `{ ...prev, [field]: value }`. */
  function SetField(d: Draft, field: string, value: string): (r: Draft)
    ensures field in r && r[field] == value
    ensures r.Keys == d.Keys + {field}
    ensures forall k :: k in d && k != field ==> r[k] == d[k]
  {
    d[field := value]
  }
}
