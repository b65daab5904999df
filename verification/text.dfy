/** Small string helpers shared by the message builders. */
module Text {

  /** `t` occurs in `s` as a contiguous piece (Python's `t in s`). */
  ghost predicate Contains(s: string, t: string) {
    exists i :: 0 <= i <= |s| && OccursAt(s, t, i)
  }

  /** `t` occurs in `s` starting at position `i`. */
  predicate OccursAt(s: string, t: string, i: int) {
    0 <= i <= |s| - |t| && s[i..i + |t|] == t
  }

  lemma ContainsSelf(t: string)
    ensures Contains(t, t)
  {
    assert OccursAt(t, t, 0);
  }

  /** Appending on either side keeps an occurrence. */
  lemma ContainsExtend(a: string, t: string, b: string)
    requires Contains(a, t)
    ensures Contains(a + b, t)
    ensures Contains(b + a, t)
  {
    var i :| 0 <= i <= |a| && OccursAt(a, t, i);
    assert (a + b)[i..i + |t|] == a[i..i + |t|];
    assert OccursAt(a + b, t, i);
    assert (b + a)[|b| + i..|b| + i + |t|] == a[i..i + |t|];
    assert OccursAt(b + a, t, |b| + i);
  }

  /** The pieces written one after another (an f-string's parts). */
  function Concat(pieces: seq<string>): string
    decreases |pieces|
  {
    if pieces == [] then "" else Concat(pieces[..|pieces| - 1]) + pieces[|pieces| - 1]
  }

  /** Every piece occurs in the concatenation. */
  lemma {:induction false} ConcatContainsPiece(pieces: seq<string>, k: int)
    requires 0 <= k < |pieces|
    ensures Contains(Concat(pieces), pieces[k])
    decreases |pieces|
  {
    var init := pieces[..|pieces| - 1];
    var last := pieces[|pieces| - 1];
    if k == |pieces| - 1 {
      ContainsSelf(last);
      ContainsExtend(last, last, Concat(init));
    } else {
      ConcatContainsPiece(init, k);
      ContainsExtend(Concat(init), init[k], last);
    }
  }

  /** Python's `sep.join(items)`. */
  function Join(items: seq<string>, sep: string): string
    decreases |items|
  {
    if items == [] then ""
    else if |items| == 1 then items[0]
    else items[0] + sep + Join(items[1..], sep)
  }
}
