/**
 * Ownership of the capture slots under the V4L2 queue protocol: a slot is
 * either not yet mapped, mapped but idle, queued (owned by the device, which
 * may write into it) or dequeued (owned by the application, holding a frame).
 */
module Ownership {

  datatype SlotState = Unmapped | Idle | Queued | Dequeued

  /** Number of slots in state `x`. */
  function Count(s: seq<SlotState>, x: SlotState): (c: nat)
    ensures c <= |s|
  {
    if s == [] then 0 else (if s[0] == x then 1 else 0) + Count(s[1..], x)
  }

  /** `n` slots, all in state `x`. */
  function AllIn(n: nat, x: SlotState): (s: seq<SlotState>)
    ensures |s| == n
    ensures forall i :: 0 <= i < n ==> s[i] == x
  {
    seq(n, _ => x)
  }

  /** In a uniform ring every slot is in the ring's state and none in any other. */
  lemma {:induction false} CountUniform(n: nat, x: SlotState, y: SlotState)
    ensures Count(AllIn(n, x), y) == if x == y then n else 0
  {
    if n > 0 {
      assert AllIn(n, x)[1..] == AllIn(n - 1, x);
      CountUniform(n - 1, x, y);
    }
  }

  /** Moving one slot to a new state moves exactly one unit of count. */
  lemma {:induction false} CountUpdate(s: seq<SlotState>, i: nat, x: SlotState, y: SlotState)
    requires i < |s|
    ensures Count(s[i := x], y)
         == Count(s, y) - (if s[i] == y then 1 else 0) + (if x == y then 1 else 0)
  {
    if i > 0 {
      assert s[i := x][1..] == s[1..][i - 1 := x];
      CountUpdate(s[1..], i - 1, x, y);
    } else {
      assert s[i := x][1..] == s[1..];
    }
  }

  /**
   * After start-capture every one of the `n` slots is owned by the device:
   * `n` queued, none handed to the application.
   */
  lemma StartedRing(n: nat)
    ensures Count(AllIn(n, Queued), Queued) == n
    ensures Count(AllIn(n, Queued), Dequeued) == 0
  {
    CountUniform(n, Queued, Queued);
    CountUniform(n, Queued, Dequeued);
  }

  /**
   * Dequeuing slot `i` of a fully queued ring leaves exactly one slot owned
   * by the application and `n - 1` owned by the device; requeuing that same
   * slot restores the fully queued ring.
   */
  lemma DequeueRequeueRoundTrip(n: nat, i: nat)
    requires i < n
    ensures Count(AllIn(n, Queued)[i := Dequeued], Dequeued) == 1
    ensures Count(AllIn(n, Queued)[i := Dequeued], Queued) == n - 1
    ensures AllIn(n, Queued)[i := Dequeued][i := Queued] == AllIn(n, Queued)
  {
    StartedRing(n);
    CountUpdate(AllIn(n, Queued), i, Dequeued, Dequeued);
    CountUpdate(AllIn(n, Queued), i, Dequeued, Queued);
  }

  /** The ring `s` with its first `k` slots set to `x`. */
  function WithPrefix(s: seq<SlotState>, k: nat, x: SlotState): (t: seq<SlotState>)
    ensures |t| == |s|
    ensures forall j :: 0 <= j < |s| ==> t[j] == if j < k then x else s[j]
  {
    seq(|s|, j requires 0 <= j < |s| => if j < k then x else s[j])
  }

  /** Setting slot `k` extends the prefix by one; the whole ring set is uniform. */
  lemma WithPrefixStep(s: seq<SlotState>, k: nat, x: SlotState)
    requires k < |s|
    ensures WithPrefix(s, k, x)[k := x] == WithPrefix(s, k + 1, x)
  {
  }

  lemma WithPrefixWhole(s: seq<SlotState>, x: SlotState)
    ensures WithPrefix(s, |s|, x) == AllIn(|s|, x)
  {
  }
}
