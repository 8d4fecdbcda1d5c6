/** Small shared vocabulary: an Option type and a few sequence helpers. */
module Base {

  datatype Option<+T> = None | Some(value: T)

  /** The last element of a non-empty sequence. */
  function Last<T>(s: seq<T>): T
    requires |s| > 0
  {
    s[|s| - 1]
  }

  /** `t` occurs in `s` starting at index `i`. */
  ghost predicate OccursAt(s: string, t: string, i: int) {
    0 <= i <= |s| - |t| && s[i..i + |t|] == t
  }

  /** `t` occurs in `s` as a contiguous piece (Go's strings.Contains). */
  ghost predicate Contains(s: string, t: string) {
    exists i :: OccursAt(s, t, i)
  }

  /** Both halves of a concatenation occur in it. */
  lemma ContainsHalves(a: string, b: string)
    ensures Contains(a + b, a) && Contains(a + b, b)
  {
    assert OccursAt(a + b, a, 0) by { assert (a + b)[0..|a|] == a; }
    assert OccursAt(a + b, b, |a|) by { assert (a + b)[|a|..|a| + |b|] == b; }
  }

  /** A piece of a string is a piece of anything that string is extended to. */
  lemma ContainsExtended(s: string, t: string, u: string)
    requires Contains(s, t)
    ensures Contains(s + u, t) && Contains(u + s, t)
  {
    var i :| OccursAt(s, t, i);
    assert OccursAt(s + u, t, i) by { assert (s + u)[i..i + |t|] == s[i..i + |t|]; }
    assert OccursAt(u + s, t, |u| + i) by { assert (u + s)[|u| + i..|u| + i + |t|] == s[i..i + |t|]; }
  }

  /** Strings with the same prefix and the same suffix agree on what lies between. */
  lemma MiddleDetermined(p: string, a: string, b: string, q: string)
    requires p + a + q == p + b + q
    ensures a == b
  {
    var s := p + a + q;
    assert |a| == |b|;
    assert a == s[|p|..|p| + |a|];
    assert b == (p + b + q)[|p|..|p| + |b|];
  }

  /** Appending one element and then a tail is appending the element's sequence. */
  lemma AppendOne<T>(s: seq<T>, x: T, tail: seq<T>)
    ensures (s + [x]) + tail == s + ([x] + tail)
  {
  }
}
