/** Learning-rate groups: the six per-group rate lists, their length check, the
    broadcast of a one-entry list to two groups, and the per-group scaling. */
module LearningRates {
  import opened Wrappers

  /** The six rate-related options, in the order the resolution step checks them. */
  datatype LrParam = InitLr | MaxLr | FinalLr | LrScaler | WarmupEpochs | WeightDecay

  const LrParamOrder: seq<LrParam> := [InitLr, MaxLr, FinalLr, LrScaler, WarmupEpochs, WeightDecay]

  /** The number of optimizer groups: one, plus one for a separate feed-forward network. */
  function NumLrs(separateFfnLr: bool): (n: nat)
    ensures 1 <= n <= 2
    ensures n == 2 <==> separateFfnLr
  {
    1 + (if separateFfnLr then 1 else 0)
  }

  /** A rate list is acceptable when it has between one and `numLrs` entries. */
  predicate GroupCountOk(s: seq<real>, numLrs: nat) {
    1 <= |s| <= numLrs
  }

  /** The position of the first list whose length is not acceptable, if any. */
  function FirstBadGroupCount(lists: seq<seq<real>>, numLrs: nat): (r: Option<nat>)
    ensures r.None? <==> forall k :: 0 <= k < |lists| ==> GroupCountOk(lists[k], numLrs)
    ensures r.Some? ==> r.value < |lists| && !GroupCountOk(lists[r.value], numLrs)
    ensures r.Some? ==> forall k :: 0 <= k < r.value ==> GroupCountOk(lists[k], numLrs)
    decreases |lists|
  {
    if lists == [] then None
    else if !GroupCountOk(lists[0], numLrs) then Some(0)
    else
      match FirstBadGroupCount(lists[1..], numLrs)
      case None => None
      case Some(k) => Some(k + 1)
  }

  /** The entry of a rate list that group `i` takes: the only one, or its own. */
  function GroupSource(s: seq<real>, i: nat): nat {
    if |s| == 1 then 0 else i
  }

  /** With a separate feed-forward optimizer a one-entry list is repeated, so that both
      groups get its value; any other list is kept. */
  function Broadcast(s: seq<real>, separateFfnLr: bool): (r: seq<real>)
    ensures GroupCountOk(s, NumLrs(separateFfnLr)) ==>
      |r| == NumLrs(separateFfnLr) && forall i :: 0 <= i < |r| ==> r[i] == s[GroupSource(s, i)]
  {
    if separateFfnLr && |s| == 1 then s + s else s
  }

  /** Every list broadcast in turn. */
  function BroadcastAll(lists: seq<seq<real>>, separateFfnLr: bool): (r: seq<seq<real>>)
    ensures |r| == |lists|
    ensures forall k :: 0 <= k < |lists| ==> r[k] == Broadcast(lists[k], separateFfnLr)
  {
    seq(|lists|, k requires 0 <= k < |lists| => Broadcast(lists[k], separateFfnLr))
  }

  /** Entry-wise product of a rate list with the scale list. */
  function Scale(lr: seq<real>, scaler: seq<real>): (r: seq<real>)
    requires |lr| <= |scaler|
    ensures |r| == |lr|
    ensures forall i :: 0 <= i < |r| ==> r[i] == lr[i] * scaler[i]
  {
    seq(|lr|, i requires 0 <= i < |lr| => lr[i] * scaler[i])
  }

  /** A rate list broadcast to the groups and scaled by the broadcast scale list: each
      group's rate times that group's scale. */
  function ScaledByGroup(lr: seq<real>, scaler: seq<real>, separateFfnLr: bool): (r: seq<real>)
    requires GroupCountOk(lr, NumLrs(separateFfnLr)) && GroupCountOk(scaler, NumLrs(separateFfnLr))
    ensures |r| == NumLrs(separateFfnLr)
    ensures forall i :: 0 <= i < |r| ==> r[i] == lr[GroupSource(lr, i)] * scaler[GroupSource(scaler, i)]
  {
    Scale(Broadcast(lr, separateFfnLr), Broadcast(scaler, separateFfnLr))
  }

  /** The scale list of every resolved configuration's equivalent option set: all ones. */
  function UnitScaler(n: nat): (r: seq<real>)
    ensures |r| == n && forall i :: 0 <= i < n ==> r[i] == 1.0
  {
    seq(n, _ => 1.0)
  }

  /** Scaling a list that already has one entry per group by ones, group by group,
      changes nothing. */
  lemma ScaledByGroupUnit(lr: seq<real>, separateFfnLr: bool)
    requires |lr| == NumLrs(separateFfnLr)
    ensures ScaledByGroup(lr, UnitScaler(NumLrs(separateFfnLr)), separateFfnLr) == lr
  {
    var r := ScaledByGroup(lr, UnitScaler(NumLrs(separateFfnLr)), separateFfnLr);
    forall i | 0 <= i < |lr|
      ensures r[i] == lr[i]
    {
      assert GroupSource(lr, i) == i;
    }
  }

  /** A list that already has one entry per group is not broadcast again. */
  lemma BroadcastFull(s: seq<real>, separateFfnLr: bool)
    requires |s| == NumLrs(separateFfnLr)
    ensures Broadcast(s, separateFfnLr) == s
  {
  }
}
