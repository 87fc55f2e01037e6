/**
 The transfer filter of the two transfer screens: the Sent screen keeps the
 transfers the user sent, every other screen keeps the ones the user did
 not send. Both keep fetch order.
 */
module Filtering {
  import opened Items

  /** `sub` can be obtained from `s` by deleting elements, keeping the rest in order. */
  ghost predicate Subsequence<T>(sub: seq<T>, s: seq<T>)
    decreases |s|
  {
    if |s| == 0 then |sub| == 0
    else Subsequence(sub, s[1..]) || (|sub| > 0 && sub[0] == s[0] && Subsequence(sub[1..], s[1..]))
  }

  /** `s` is a shuffle of `a` and `b`: each element of `s` comes next from one of them, in order. */
  ghost predicate Interleaving<T>(s: seq<T>, a: seq<T>, b: seq<T>)
    decreases |s|
  {
    if |s| == 0 then |a| == 0 && |b| == 0
    else
      || (|a| > 0 && a[0] == s[0] && Interleaving(s[1..], a[1..], b))
      || (|b| > 0 && b[0] == s[0] && Interleaving(s[1..], a, b[1..]))
  }

  /**
   The transfers whose `isSender` equals `keepSent`, in fetch order: every
   such transfer is kept as often as it occurs, every other one dropped.
   */
  function FilterTransfers(transfers: seq<Transfer>, keepSent: bool): (kept: seq<Transfer>)
    ensures forall i :: 0 <= i < |kept| ==> kept[i].isSender == keepSent
    ensures forall t :: multiset(kept)[t] == if t.isSender == keepSent then multiset(transfers)[t] else 0
    ensures Subsequence(kept, transfers)
    decreases |transfers|
  {
    if |transfers| == 0 then []
    else
      assert transfers == [transfers[0]] + transfers[1..];
      var rest := FilterTransfers(transfers[1..], keepSent);
      if transfers[0].isSender == keepSent then [transfers[0]] + rest else rest
  }

  /**
   The Sent filter and the other filter partition a fetched list: the list
   is an interleaving of the two, so together they keep every transfer
   exactly once and in fetch order.
   */
  lemma {:induction false} SentAndReceivedPartition(transfers: seq<Transfer>)
    ensures Interleaving(transfers, FilterTransfers(transfers, true), FilterTransfers(transfers, false))
    ensures |FilterTransfers(transfers, true)| + |FilterTransfers(transfers, false)| == |transfers|
    decreases |transfers|
  {
    if |transfers| > 0 {
      SentAndReceivedPartition(transfers[1..]);
      var sent := FilterTransfers(transfers[1..], true);
      var received := FilterTransfers(transfers[1..], false);
      if transfers[0].isSender {
        assert FilterTransfers(transfers, true) == [transfers[0]] + sent;
        assert FilterTransfers(transfers, false) == received;
        assert ([transfers[0]] + sent)[1..] == sent;
      } else {
        assert FilterTransfers(transfers, true) == sent;
        assert FilterTransfers(transfers, false) == [transfers[0]] + received;
        assert ([transfers[0]] + received)[1..] == received;
      }
    }
  }
}
