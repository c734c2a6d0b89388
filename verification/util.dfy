/** The variadic helpers of the `util` package. */
module Util {

  /**
   * FirstString: the first non-empty argument, or "" when there is none
   * (the loop variable shadows the named result, so the fall-through returns
   * the zero value).
   */
  method FirstString(strs: seq<string>) returns (r: string)
    ensures r == "" <==> forall i :: 0 <= i < |strs| ==> strs[i] == ""
    ensures r != "" ==> exists i :: 0 <= i < |strs| && strs[i] == r && forall j :: 0 <= j < i ==> strs[j] == ""
    ensures |strs| > 0 && strs[0] != "" ==> r == strs[0]
  {
    for i := 0 to |strs|
      invariant forall j :: 0 <= j < i ==> strs[j] == ""
    {
      if strs[i] != "" {
        return strs[i];
      }
    }
    return "";
  }

  /** FirstUInt: the first argument greater than zero, or 0 when there is none. */
  method FirstUInt(ints: seq<nat>) returns (n: nat)
    ensures n == 0 <==> forall i :: 0 <= i < |ints| ==> ints[i] == 0
    ensures n > 0 ==> exists i :: 0 <= i < |ints| && ints[i] == n && forall j :: 0 <= j < i ==> ints[j] == 0
    ensures |ints| > 0 && ints[0] > 0 ==> n == ints[0]
  {
    for i := 0 to |ints|
      invariant forall j :: 0 <= j < i ==> ints[j] == 0
    {
      if ints[i] > 0 {
        return ints[i];
      }
    }
    return 0;
  }
}
