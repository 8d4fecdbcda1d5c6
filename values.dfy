/**
  The form parameters of a request, as Go's `url.Values` holds them: a map from
  a key to the list of values set for it. A Go map may also be nil, which reads
  like an empty map but is a different value, so the two are kept apart here.
*/
module Values {

  datatype Form = Nil | Values(entries: map<string, seq<string>>)

  /** `url.Values{}`: a fresh, non-nil, empty form. */
  const Empty: Form := Values(map[])

  /** What a reader of the form sees: a nil form reads as an empty one. */
  function Entries(f: Form): map<string, seq<string>> {
    if f.Nil? then map[] else f.entries
  }

  /**
    `v.Set(key, value)`: replaces whatever `key` held by the one value `value`.
    Writing to a nil map panics in Go, so the form must be non-nil.
  */
  function Set(f: Form, key: string, value: string): (r: Form)
    requires f.Values?
    ensures r.Values? && r.entries.Keys == f.entries.Keys + {key}
    ensures r.entries[key] == [value]
    ensures forall k :: k in f.entries && k != key ==> r.entries[k] == f.entries[k]
  {
    Values(f.entries[key := [value]])
  }

  /** Every key of the form carries exactly one value. */
  predicate SingleValued(f: Form) {
    forall k :: k in Entries(f) ==> |Entries(f)[k]| == 1
  }

  /** `v.Get(key)`: the first value set for `key`, or "" when there is none. */
  function Get(f: Form, key: string): string {
    if key in Entries(f) && |Entries(f)[key]| > 0 then Entries(f)[key][0] else ""
  }
}
