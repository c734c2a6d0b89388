/** Searching a sequence for the last element with a property. */
module Seqs {
  import opened Wrappers

  /** The last index whose element satisfies `p`, or None when no element does. */
  function LastIndex<T>(s: seq<T>, p: T -> bool): (r: Option<nat>)
    ensures r.Some? ==> r.value < |s| && p(s[r.value]) && forall j :: r.value < j < |s| ==> !p(s[j])
    ensures r.None? <==> forall j :: 0 <= j < |s| ==> !p(s[j])
  {
    if |s| == 0 then None
    else if p(s[|s| - 1]) then Some(|s| - 1)
    else LastIndex(s[..|s| - 1], p)
  }

  /**
   * Go's `for i, x := range s { if p(x) { found = i } }`: a forward scan with
   * no `break`, so every later hit overwrites an earlier one.
   */
  method ScanLast<T>(s: seq<T>, p: T -> bool) returns (found: Option<nat>)
    ensures found.Some? ==> found.value < |s| && p(s[found.value])
    ensures found.Some? ==> forall j :: found.value < j < |s| ==> !p(s[j])
    ensures found.None? ==> forall j :: 0 <= j < |s| ==> !p(s[j])
    ensures found == LastIndex(s, p)
  {
    found := None;
    for i := 0 to |s|
      invariant found == LastIndex(s[..i], p)
    {
      assert s[..i + 1][..i] == s[..i];
      if p(s[i]) {
        found := Some(i);
      }
    }
    assert s[..|s|] == s;
  }
}
