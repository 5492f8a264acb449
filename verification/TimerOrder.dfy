/** The two list operations of MainLoop's timer list, as functions on sequences.
  *
  * `std::list<Timer*>` is a `seq` of timer ids here. The list never holds a null pointer, because
  * `addTimer` refuses one, so the null branches of the original have no counterpart. */
module TimerOrder {

  type TimerId = nat

  /** The place the `find_if` of `insertTimerLocked` stops at: the first listed key greater than `key`. */
  function InsertPos(keys: seq<nat>, key: nat): (p: nat)
    ensures p <= |keys|
    ensures forall i :: 0 <= i < p ==> keys[i] <= key
    ensures p < |keys| ==> key < keys[p]
  {
    if keys == [] || key < keys[0] then 0 else 1 + InsertPos(keys[1..], key)
  }

  function InsertAt(list: seq<TimerId>, p: nat, t: TimerId): (r: seq<TimerId>)
    requires p <= |list|
    ensures |r| == |list| + 1 && r[p] == t
    ensures forall i :: 0 <= i < p ==> r[i] == list[i]
    ensures forall i :: p < i < |r| ==> r[i] == list[i - 1]
    ensures forall u :: u in r <==> u == t || u in list
  {
    assert forall u :: u in list <==> u in list[..p] || u in list[p..] by {
      assert list == list[..p] + list[p..];
    }
    list[..p] + [t] + list[p..]
  }

  /** Index of the first occurrence of `t`, or |list|. */
  function IndexOf(list: seq<TimerId>, t: TimerId): (p: nat)
    ensures p <= |list|
    ensures p < |list| ==> list[p] == t
    ensures forall i :: 0 <= i < p ==> list[i] != t
    ensures t in list <==> p < |list|
  {
    if list == [] || list[0] == t then 0 else 1 + IndexOf(list[1..], t)
  }

  /** `removeTimer`: erase the first occurrence, if there is one. */
  function Erase(list: seq<TimerId>, t: TimerId): (r: seq<TimerId>)
    ensures t !in list ==> r == list
    ensures t in list ==> |r| == |list| - 1
    ensures t in list ==>
              forall i :: 0 <= i < |r| ==> r[i] == list[if i < IndexOf(list, t) then i else i + 1]
    ensures forall u :: u != t ==> (u in r <==> u in list)
  {
    var p := IndexOf(list, t);
    if p == |list| then list
    else
      assert list == list[..p] + [t] + list[p + 1..];
      list[..p] + list[p + 1..]
  }

  ghost predicate Distinct(list: seq<TimerId>) {
    forall i, j :: 0 <= i < j < |list| ==> list[i] != list[j]
  }

  lemma EraseDistinct(list: seq<TimerId>, t: TimerId)
    requires Distinct(list)
    ensures t !in Erase(list, t)
  {
  }
}
