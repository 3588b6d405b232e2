/** Strings joined with a separator that the left part does not contain can be taken apart again. */
module Separators {

  lemma SplitAtColon(a: string, b: string, x: string, y: string)
    requires ':' !in a && ':' !in b && a + ":" + x == b + ":" + y
    ensures a == b && x == y
  {
    var s, r := a + ":" + x, b + ":" + y;
    assert s[|a|] == ':' && r[|b|] == ':';
    assert forall i :: 0 <= i < |a| ==> s[i] == a[i] && a[i] in a;
    assert forall i :: 0 <= i < |b| ==> r[i] == b[i] && b[i] in b;
    assert a == s[..|a|] && b == r[..|b|];
    assert x == s[|a| + 1..] && y == r[|b| + 1..];
  }
}
