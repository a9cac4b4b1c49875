/**
  The GPU fence ring of syncFrame: five slots, each empty or holding the
  fence of a submitted frame, and the index of the slot used last. A new
  frame is started only when the next slot is empty or its fence has
  signalled, which bounds the number of frames queued on the GPU.
*/
module FenceSync {
  import opened Wrappers

  /** Number of slots in the ring (the length of `syncs`). */
  const RingSize: nat := 5

  /** Identity of a fence object created by gl.fenceSync. */
  datatype Fence = Fence(id: nat)

  datatype Ring = Ring(syncs: seq<Option<Fence>>, index: nat)

  /** How the next render call is scheduled once a frame may start:
      requestAnimationFrame (vsynced) or a resolved promise (as soon as possible). */
  datatype Schedule = AnimationFrame | Microtask

  /** syncFrame either starts the next frame or asks to be called again
      (setTimeout(syncFrame, 0)). */
  datatype SyncOutcome = Started(schedule: Schedule) | Retry

  ghost predicate ValidRing(r: Ring)
  {
    |r.syncs| == RingSize && r.index < RingSize
  }

  function NextSlot(i: nat): (j: nat)
    ensures j < RingSize
  {
    (i + 1) % RingSize
  }

  /** The slot to be reused is empty, or its fence has signalled. */
  predicate SlotFree(r: Ring, signalled: bool)
    requires |r.syncs| == RingSize
  {
    r.syncs[NextSlot(r.index)].None? || signalled
  }

  function ScheduleFor(vsync: bool): Schedule
  {
    if vsync then AnimationFrame else Microtask
  }

  /** One call of syncFrame. `signalled` is what gl.getSyncParameter reports
      for the fence in the next slot (it is not consulted for an empty slot);
      `fence` is the fence gl.fenceSync would create. */
  function Poll(r: Ring, vsync: bool, signalled: bool, fence: Fence): (res: (Ring, SyncOutcome))
    requires ValidRing(r)
    ensures ValidRing(res.0)
    ensures res.1.Started? <==> r.syncs[NextSlot(r.index)].None? || signalled
    ensures res.1.Started? ==>
      && res.0.index == (r.index + 1) % RingSize
      && res.0.syncs[res.0.index] == Some(fence)
      && (forall j :: 0 <= j < RingSize && j != res.0.index ==> res.0.syncs[j] == r.syncs[j])
      && res.1.schedule == (if vsync then AnimationFrame else Microtask)
    ensures res.1.Retry? ==> res.0 == r
    // a fence is dropped from the ring only once it has signalled
    ensures forall j :: 0 <= j < RingSize && res.0.syncs[j] != r.syncs[j] ==>
      j == NextSlot(r.index) && (r.syncs[j].None? || signalled)
  {
    if SlotFree(r, signalled) then
      var i := NextSlot(r.index);
      (Ring(r.syncs[i := Some(fence)], i), Started(ScheduleFor(vsync)))
    else
      (r, Retry)
  }

  /** The ring after frames have started with the given fences, in order:
      successive syncFrame calls that each find their slot free (the vsync
      request does not affect the ring). */
  function StartAll(r: Ring, fences: seq<Fence>): (t: Ring)
    requires ValidRing(r)
    ensures ValidRing(t)
    decreases |fences|
  {
    if fences == [] then r
    else StartAll(Poll(r, false, true, fences[0]).0, fences[1..])
  }

  /** A start on a free slot: the slot after the index gets the fence and
      becomes the index. */
  lemma StartStep(r: Ring, fence: Fence)
    requires ValidRing(r)
    ensures Poll(r, false, true, fence).0 == Ring(r.syncs[NextSlot(r.index) := Some(fence)], NextSlot(r.index))
  {
  }

  /** How many slots after `from` slot j comes, counting the next slot as 0. */
  function Ahead(from: nat, j: nat): (d: nat)
    requires from < RingSize && j < RingSize
    ensures d < RingSize
  {
    if j > from then j - from - 1 else j + RingSize - from - 1
  }

  lemma AheadStep(from: nat, j: nat)
    requires from < RingSize && j < RingSize
    ensures Ahead(from, NextSlot(from)) == 0
    ensures j != NextSlot(from) ==> Ahead(NextSlot(from), j) == Ahead(from, j) - 1
    ensures (from + 1) % RingSize == NextSlot(from)
  {
  }

  lemma NextIndexAfter(from: nat, n: nat)
    requires from < RingSize
    ensures (NextSlot(from) + n) % RingSize == (from + n + 1) % RingSize
  {
  }

  /** Slot j after the frames with the given fences have started: the fence
      of the start that reached it, or what it held before. */
  function SlotAfter(r: Ring, fences: seq<Fence>, j: nat): Option<Fence>
    requires ValidRing(r) && j < RingSize
  {
    if Ahead(r.index, j) < |fences| then Some(fences[Ahead(r.index, j)]) else r.syncs[j]
  }

  /** One start moves the ring on by a slot, and the remaining starts reach
      each slot as they would have from the old ring. */
  lemma SlotAfterStep(r: Ring, fences: seq<Fence>, j: nat)
    requires ValidRing(r) && 0 < |fences| <= RingSize && j < RingSize
    ensures SlotAfter(Ring(r.syncs[NextSlot(r.index) := Some(fences[0])], NextSlot(r.index)), fences[1..], j)
         == SlotAfter(r, fences, j)
  {
    AheadStep(r.index, j);
  }

  /** Up to five consecutive frame starts fill the slots after the current
      index in turn and leave the other slots alone; after five the index is
      back where it was, so a fence is replaced only at the fifth start after
      its own. */
  lemma {:induction false} StartAllFillsSlots(r: Ring, fences: seq<Fence>)
    requires ValidRing(r) && |fences| <= RingSize
    ensures StartAll(r, fences).index == (r.index + |fences|) % RingSize
    ensures forall j :: 0 <= j < RingSize ==> StartAll(r, fences).syncs[j] == SlotAfter(r, fences, j)
    decreases |fences|
  {
    if fences != [] {
      var r1 := Ring(r.syncs[NextSlot(r.index) := Some(fences[0])], NextSlot(r.index));
      StartStep(r, fences[0]);
      StartAllFillsSlots(r1, fences[1..]);
      NextIndexAfter(r.index, |fences| - 1);
      forall j | 0 <= j < RingSize
        ensures StartAll(r, fences).syncs[j] == SlotAfter(r, fences, j)
      {
        SlotAfterStep(r, fences, j);
      }
    }
  }

  // ----- Retrying after a stall -----

  /** The chain of syncFrame calls ending a frame: the first call gets `vsync`,
      each retry gets `retryVsync`; statuses[k] is the signal status seen by
      attempt k. The ring does not change until an attempt succeeds. */
  function Settle(r: Ring, vsync: bool, retryVsync: bool, statuses: seq<bool>): (s: Option<Schedule>)
    requires ValidRing(r)
    // the first attempt schedules as asked, every later one as a retry asks
    ensures s == None || s == Some(ScheduleFor(vsync)) || s == Some(ScheduleFor(retryVsync))
    ensures s == Some(ScheduleFor(vsync)) && vsync != retryVsync ==> |statuses| > 0 && SlotFree(r, statuses[0])
    // an empty slot lets the first attempt through
    ensures |statuses| > 0 && r.syncs[NextSlot(r.index)].None? ==> s == Some(ScheduleFor(vsync))
    decreases |statuses|
  {
    if statuses == [] then None
    else if SlotFree(r, statuses[0]) then Some(ScheduleFor(vsync))
    else Settle(r, retryVsync, retryVsync, statuses[1..])
  }

  /** As written: setTimeout(syncFrame, 0) calls syncFrame with no argument,
      so every retry sees vsync undefined, which is falsy. */
  function SettleAsWritten(r: Ring, vsync: bool, statuses: seq<bool>): (s: Option<Schedule>)
    requires ValidRing(r)
    // vsync survives only when the very first attempt finds its slot free
    ensures s == Some(AnimationFrame) ==> vsync && |statuses| > 0 && SlotFree(r, statuses[0])
    ensures s == None || s == Some(ScheduleFor(vsync)) || s == Some(Microtask)
  {
    Settle(r, vsync, false, statuses)
  }

  /** The ring with every slot full and index 0. */
  const FullRing := Ring([Some(Fence(4)), Some(Fence(0)), Some(Fence(1)), Some(Fence(2)), Some(Fence(3))], 0)

  /** Five frame starts from the empty ring of src/index.js:115-116 lead to
      the full ring. */
  lemma FullRingReachable()
    ensures StartAll(Ring([None, None, None, None, None], 0), [Fence(0), Fence(1), Fence(2), Fence(3), Fence(4)]) == FullRing
  {
    var fences := [Fence(0), Fence(1), Fence(2), Fence(3), Fence(4)];
    var r0 := Ring([None, None, None, None, None], 0);
    StartAllFillsSlots(r0, fences);
    var t := StartAll(r0, fences);
    assert t.syncs[0] == SlotAfter(r0, fences, 0) == Some(Fence(4));
    assert t.syncs[1] == SlotAfter(r0, fences, 1) == Some(Fence(0));
    assert t.syncs[2] == SlotAfter(r0, fences, 2) == Some(Fence(1));
    assert t.syncs[3] == SlotAfter(r0, fences, 3) == Some(Fence(2));
    assert t.syncs[4] == SlotAfter(r0, fences, 4) == Some(Fence(3));
    assert t.syncs == FullRing.syncs;
  }

  /** A frame that asked for vsync on the full ring, and that hit an
      unsignalled fence once, is then started through a promise, without
      vsync. */
  lemma SettleAsWrittenDropsVsync()
    ensures SettleAsWritten(FullRing, true, [false, true]) == Some(Microtask)
  {
    assert !SlotFree(FullRing, false) && SlotFree(FullRing, true);
  }

  /** Corrected: each retry passes the original vsync request along. */
  function SettleCorrected(r: Ring, vsync: bool, statuses: seq<bool>): Option<Schedule>
    requires ValidRing(r)
  {
    Settle(r, vsync, vsync, statuses)
  }

  /** With the request passed along, the frame is scheduled exactly as asked,
      and it is scheduled as soon as the slot is empty or one status reports
      the fence signalled. */
  lemma {:induction false} SettleCorrectedKeepsVsync(r: Ring, vsync: bool, statuses: seq<bool>)
    requires ValidRing(r)
    ensures SettleCorrected(r, vsync, statuses) == None || SettleCorrected(r, vsync, statuses) == Some(ScheduleFor(vsync))
    ensures SettleCorrected(r, vsync, statuses).Some? <==>
      |statuses| > 0 && (r.syncs[NextSlot(r.index)].None? || true in statuses)
    decreases |statuses|
  {
    if statuses != [] && !SlotFree(r, statuses[0]) {
      SettleCorrectedKeepsVsync(r, vsync, statuses[1..]);
      assert statuses == [statuses[0]] + statuses[1..];
    }
  }

  /** The ring of syncFrame: `syncs` and `sync_i`. */
  class FenceRing {
    var syncs: seq<Option<Fence>>
    var syncIndex: nat

    ghost predicate Valid()
      reads this
    {
      ValidRing(Ring(syncs, syncIndex))
    }

    function State(): Ring
      reads this
    {
      Ring(syncs, syncIndex)
    }

    constructor ()
      ensures Valid()
      ensures syncs == [None, None, None, None, None] && syncIndex == 0
    {
      syncs := [None, None, None, None, None];
      syncIndex := 0;
    }

    method SyncFrame(vsync: bool, signalled: bool, fence: Fence) returns (outcome: SyncOutcome)
      requires Valid()
      modifies this`syncs, this`syncIndex
      ensures Valid()
      ensures (State(), outcome) == Poll(old(State()), vsync, signalled, fence)
    {
      var nextIndex := (syncIndex + 1) % RingSize;
      var status := if syncs[nextIndex] != None then signalled else true;
      if status {
        syncIndex := nextIndex;
        syncs := syncs[syncIndex := Some(fence)];
        if vsync {
          outcome := Started(AnimationFrame);
        } else {
          outcome := Started(Microtask);
        }
        return;
      }
      outcome := Retry;
    }

    /** The chain of syncFrame calls that ends a frame, with each retry given
        the vsync request of the first call; statuses[k] is the status the
        k-th attempt sees. Once the frame starts no further attempt is made. */
    method SyncUntilStarted(vsync: bool, statuses: seq<bool>, fence: Fence) returns (schedule: Option<Schedule>)
      requires Valid()
      modifies this`syncs, this`syncIndex
      ensures Valid()
      ensures schedule == SettleCorrected(old(State()), vsync, statuses)
      ensures schedule.None? ==> State() == old(State())
      ensures schedule.Some? ==> State() == Poll(old(State()), vsync, true, fence).0
    {
      schedule := None;
      var k := 0;
      while k < |statuses| && schedule.None?
        invariant 0 <= k <= |statuses| && Valid()
        invariant schedule.None? ==> State() == old(State())
        invariant schedule.None? ==>
          SettleCorrected(old(State()), vsync, statuses) == Settle(old(State()), vsync, vsync, statuses[k..])
        invariant schedule.Some? ==> schedule == SettleCorrected(old(State()), vsync, statuses)
        invariant schedule.Some? ==> State() == Poll(old(State()), vsync, true, fence).0
        decreases |statuses| - k
      {
        assert statuses[k..][1..] == statuses[k + 1..];
        var outcome := SyncFrame(vsync, statuses[k], fence);
        if outcome.Started? {
          schedule := Some(outcome.schedule);
        }
        k := k + 1;
      }
    }
  }
}
