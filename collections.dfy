/** The linear scan behind `findOne`, `findById` and `Array.prototype.findIndex`-style loops. */
module Collections {

  /** The index of the first element satisfying `p`, or `|s|` when none does. */
  function FirstIndex<T>(s: seq<T>, p: T -> bool): (i: nat)
    ensures i <= |s|
    ensures forall j :: 0 <= j < i ==> !p(s[j])
    ensures i < |s| ==> p(s[i])
  {
    if s == [] then 0
    else if p(s[0]) then 0
    else 1 + FirstIndex(s[1..], p)
  }

  /** Appending an element never moves an earlier match; it is found only when nothing before it matches. */
  lemma FirstIndexAppend<T>(s: seq<T>, x: T, p: T -> bool)
    ensures FirstIndex(s + [x], p) ==
      if FirstIndex(s, p) < |s| then FirstIndex(s, p)
      else if p(x) then |s| else |s| + 1
  {
    var i, k := FirstIndex(s, p), FirstIndex(s + [x], p);
    if i < |s| {
      assert (s + [x])[i] == s[i];
      assert forall j :: 0 <= j < k ==> (s + [x])[j] == s[j] || j == |s|;
    } else {
      assert forall j :: 0 <= j < |s| ==> (s + [x])[j] == s[j];
      assert (s + [x])[|s|] == x;
    }
  }
}
