/** The linear searches that the connection tables share. */
module Search {

  /** The first position of `s` whose element satisfies `p`, or `|s|`. */
  function First<T>(s: seq<T>, p: T -> bool): (i: nat)
    ensures i <= |s|
    ensures i < |s| ==> p(s[i])
    ensures forall j :: 0 <= j < i ==> !p(s[j])
  {
    FirstFrom(s, p, 0)
  }

  function FirstFrom<T>(s: seq<T>, p: T -> bool, from: nat): (i: nat)
    requires from <= |s|
    requires forall j :: 0 <= j < from ==> !p(s[j])
    ensures from <= i <= |s|
    ensures i < |s| ==> p(s[i])
    ensures forall j :: 0 <= j < i ==> !p(s[j])
    decreases |s| - from
  {
    if from == |s| || p(s[from]) then from else FirstFrom(s, p, from + 1)
  }

  /** The first position holding the smallest key. */
  function ArgMin(keys: seq<int>): (i: nat)
    requires keys != []
    ensures i < |keys|
    ensures forall j :: 0 <= j < |keys| ==> keys[i] <= keys[j]
    ensures forall j :: 0 <= j < i ==> keys[i] < keys[j]
  {
    var k := |keys| - 1;
    if k == 0 then 0
    else
      var m := ArgMin(keys[..k]);
      assert forall j :: 0 <= j < k ==> keys[..k][j] == keys[j];
      if keys[k] < keys[m] then k else m
  }
}
