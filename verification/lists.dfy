/** Sequence helpers shared by the sensors' and the ECUs' subscription vectors. */
module Lists {

  /**
   * `vector::erase` at the position `i` of a match. `i == |s|` stands for
   * "no match found", where no `erase` is called and nothing changes. The
   * entries before `i` keep their positions, the entries after it move down
   * by one.
   */
  function RemoveAt<T>(s: seq<T>, i: nat): (r: seq<T>)
    requires i <= |s|
    ensures i == |s| ==> r == s
    ensures i < |s| ==> |r| == |s| - 1
    ensures forall j | 0 <= j < i && j < |r| :: r[j] == s[j]
    ensures forall j | i <= j < |r| :: r[j] == s[j + 1]
    ensures multiset(r) == if i < |s| then multiset(s) - multiset{s[i]} else multiset(s)
  {
    if i == |s| then s
    else
      assert s == s[..i] + [s[i]] + s[i + 1..];
      s[..i] + s[i + 1..]
  }

  /** Erasing never brings in an entry that was not there. */
  lemma RemoveAtKeepsOnlyMembers<T>(s: seq<T>, i: nat)
    requires i <= |s|
    ensures forall x | x in RemoveAt(s, i) :: x in s
  {
    var r := RemoveAt(s, i);
    forall x | x in r ensures x in s {
      assert x in multiset(r);
    }
  }
}
