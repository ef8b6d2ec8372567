/** Splitting strings at a separator character: the inverse of the `a + sep + b`
    formatting the crawler does for full names and search queries. */
module Text {
  import opened Outcomes

  /** The position of the first `c` in `s`, if any. */
  function FirstIndex(s: string, c: char): (r: Option<nat>)
    ensures r.Some? ==> r.value < |s| && s[r.value] == c && c !in s[..r.value]
    ensures r.None? <==> c !in s
    ensures forall j :: 0 <= j < |s| && s[j] == c ==> r.Some? && r.value <= j
  {
    if |s| == 0 then None
    else if s[0] == c then Some(0)
    else
      match FirstIndex(s[1..], c)
      case Some(i) =>
        assert s[..i + 1] == [s[0]] + s[1..][..i];
        Some(i + 1)
      case None => None
  }

  /** The parts of `s` before and after its first `c`. */
  function SplitAt(s: string, c: char): Option<(string, string)> {
    match FirstIndex(s, c)
    case Some(i) => Some((s[..i], s[i + 1..]))
    case None => None
  }

  /** Joining two parts with a separator the first part does not contain, then
      splitting at that separator, gives the parts back. */
  lemma SplitJoin(a: string, c: char, b: string)
    requires c !in a
    ensures SplitAt(a + [c] + b, c) == Some((a, b))
  {
    var s := a + [c] + b;
    assert s[|a|] == c;
    var i := FirstIndex(s, c).value;
    assert forall j :: 0 <= j < |a| ==> s[j] == a[j] && s[j] != c;
    assert i == |a|;
    assert s[..i] == a;
    assert s[i + 1..] == b;
  }
}
