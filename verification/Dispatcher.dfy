/** Chunked round robin over worker queues (go_client/dispatcher.go). */
module Dispatcher {
  import opened Base

  const CHUNK: nat := 8

  type Packet = seq<byte>

  /** Current worker and packets already sent to it in this chunk. */
  datatype Rr = Rr(index: nat, count: nat)

  predicate RrOk(rr: Rr, n: nat) {
    rr.index < (if n == 0 then 1 else n) && rr.count < CHUNK
  }

  /** First worker at or after step `i` from `idx`, going round, whose queue is not full. */
  function FirstFree(full: seq<bool>, idx: nat, i: nat): (r: Option<nat>)
    requires idx < |full| && i <= |full|
    ensures r.Some? ==> r.value < |full| && !full[r.value]
    ensures r.None? ==> forall j :: i <= j < |full| ==> full[Turn(idx, j, |full|)]
    decreases |full| - i
  {
    if i == |full| then None
    else if !full[Turn(idx, i, |full|)] then Some(Turn(idx, i, |full|))
    else FirstFree(full, idx, i + 1)
  }

  /** The queue found is the first with room: `d` steps on, with every queue before it full. */
  lemma {:induction false} FirstFreeIsFirst(full: seq<bool>, idx: nat, i: nat) returns (d: nat)
    requires idx < |full| && i <= |full|
    ensures i <= d <= |full| && forall j :: i <= j < d ==> full[Turn(idx, j, |full|)]
    ensures d < |full| ==> !full[Turn(idx, d, |full|)]
    ensures FirstFree(full, idx, i) == if d < |full| then Some(Turn(idx, d, |full|)) else None
    decreases |full| - i
  {
    d := i;
    if i < |full| && full[Turn(idx, i, |full|)] {
      d := FirstFreeIsFirst(full, idx, i + 1);
    }
  }

  /** One dispatch: where the packet goes and how the round robin moves on. */
  function Dispatched(rr: Rr, full: seq<bool>): (r: (Rr, Option<nat>))
    requires RrOk(rr, |full|)
    ensures RrOk(r.0, |full|)
  {
    var n := |full|;
    if n == 0 then (rr, None)
    else if !full[rr.index] then
      (if rr.count + 1 >= CHUNK then Rr(Turn(rr.index, 1, n), 0) else Rr(rr.index, rr.count + 1), Some(rr.index))
    else
      match FirstFree(full, rr.index, 1)
      case Some(alt) => (Rr(alt, 1), Some(alt))
      case None => (Rr(Turn(rr.index, 1, n), 0), None)
  }

  /** A packet is dropped exactly when there is no worker or every queue is full; otherwise it goes to a worker
      with room, and to the current one if that has room. */
  lemma DispatchContract(rr: Rr, full: seq<bool>)
    requires RrOk(rr, |full|)
    ensures var target := Dispatched(rr, full).1;
            && (target.None? <==> forall i :: 0 <= i < |full| ==> full[i])
            && (target.Some? ==> target.value < |full| && !full[target.value])
            && (full != [] && !full[rr.index] ==> target == Some(rr.index))
  {
    if full != [] && full[rr.index] && FirstFree(full, rr.index, 1).None? {
      forall i | 0 <= i < |full| ensures full[i] {
        var d := Distance(rr.index, i, |full|);
        if d > 0 { assert full[Turn(rr.index, d, |full|)]; }
      }
    }
  }

  /** The cursor after dispatching one packet per fullness snapshot of the same `n` workers. */
  function After(rr: Rr, fulls: seq<seq<bool>>, n: nat): (r: Rr)
    requires RrOk(rr, n) && forall k :: 0 <= k < |fulls| ==> |fulls[k]| == n
    ensures RrOk(r, n)
  {
    if fulls == [] then rr else Dispatched(After(rr, fulls[..|fulls| - 1], n), fulls[|fulls| - 1]).0
  }

  /** Where packet number `k` of a round starting at worker `i` belongs. */
  function Slot(i: nat, n: nat, k: nat): (r: nat)
    requires i < n && k <= CHUNK * n
    ensures r < n
  {
    Turn(i, k / CHUNK, n)
  }

  /** The snapshots cover `n` workers and the worker whose turn it is always has room. */
  ghost predicate Roomy(fulls: seq<seq<bool>>, i: nat, n: nat)
    requires i < n
  {
    |fulls| <= CHUNK * n && forall k :: 0 <= k < |fulls| ==> |fulls[k]| == n && !fulls[k][Slot(i, n, k)]
  }

  lemma {:induction false} RoundCursor(fulls: seq<seq<bool>>, i: nat, n: nat)
    requires i < n && Roomy(fulls, i, n)
    ensures After(Rr(i, 0), fulls, n) == Rr(Slot(i, n, |fulls|), |fulls| % CHUNK)
  {
    if fulls != [] {
      var k := |fulls| - 1;
      var before := fulls[..k];
      assert Roomy(before, i, n);
      RoundCursor(before, i, n);
      var idx := Slot(i, n, k);
      assert fulls[k] == fulls[|fulls| - 1] && !fulls[k][idx];
      if k % CHUNK + 1 >= CHUNK {
        assert (k + 1) / CHUNK == k / CHUNK + 1;
      } else {
        assert (k + 1) / CHUNK == k / CHUNK;
      }
    }
  }

  /** Fairness: with n fixed workers that always have room, 8n packets from a chunk start give every worker
      exactly one run of 8 consecutive packets and bring the cursor back to where it was. */
  lemma FairRound(fulls: seq<seq<bool>>, i: nat, n: nat)
    requires i < n && Roomy(fulls, i, n) && |fulls| == CHUNK * n
    ensures After(Rr(i, 0), fulls, n) == Rr(i, 0)
    ensures forall k :: 0 <= k < |fulls| ==> Dispatched(After(Rr(i, 0), fulls[..k], n), fulls[k]).1 == Some(Slot(i, n, k))
    ensures forall w, k :: 0 <= w < n && 0 <= k < |fulls| ==>
              (Slot(i, n, k) == w <==> CHUNK * Distance(i, w, n) <= k < CHUNK * Distance(i, w, n) + CHUNK)
  {
    RoundCursor(fulls, i, n);
    assert (CHUNK * n) / CHUNK == n;
    forall k | 0 <= k < |fulls| ensures Dispatched(After(Rr(i, 0), fulls[..k], n), fulls[k]).1 == Some(Slot(i, n, k)) {
      assert Roomy(fulls[..k], i, n);
      RoundCursor(fulls[..k], i, n);
    }
    forall w, k | 0 <= w < n && 0 <= k < |fulls|
      ensures Slot(i, n, k) == w <==> CHUNK * Distance(i, w, n) <= k < CHUNK * Distance(i, w, n) + CHUNK
    {
      assert k / CHUNK < n;
    }
  }

  /** Where the cursor goes: the chunk counts on, or ends after eight; a packet sent elsewhere is the first of a new
      chunk there; a dropped one moves the cursor on. */
  lemma CursorExactly(rr: Rr, full: seq<bool>)
    requires RrOk(rr, |full|) && full != []
    ensures var (r, target) := Dispatched(rr, full);
            r == if target.None? then Rr((rr.index + 1) % |full|, 0)
                 else if target.value != rr.index then Rr(target.value, 1)
                 else if rr.count == 7 then Rr((rr.index + 1) % |full|, 0)
                 else Rr(rr.index, rr.count + 1)
  {
    DispatchContract(rr, full);
    WrapOrZero(rr.index, |full|);
  }

  /** After a redirect the other worker gets a whole chunk: as long as it has room, the next seven packets follow the
      first one there. */
  lemma {:induction false} RedirectStartsChunk(rr: Rr, full: seq<bool>, w: nat, fulls: seq<seq<bool>>)
    requires RrOk(rr, |full|) && Dispatched(rr, full).1 == Some(w) && w != rr.index && |fulls| <= 7
    requires forall k :: 0 <= k < |fulls| ==> |fulls[k]| == |full| && !fulls[k][w]
    ensures |fulls| < 7 ==> After(Dispatched(rr, full).0, fulls, |full|) == Rr(w, 1 + |fulls|)
    ensures fulls != [] ==>
              Dispatched(After(Dispatched(rr, full).0, fulls[..|fulls| - 1], |full|), fulls[|fulls| - 1]).1 == Some(w)
  {
    CursorExactly(rr, full);
    if fulls != [] {
      RedirectStartsChunk(rr, full, w, fulls[..|fulls| - 1]);
    }
  }

  // ----- the objects

  class WorkerSlot {
    const id: int
    const capacity: nat
    var queue: seq<Packet>

    constructor (id: int, capacity: nat)
      ensures this.id == id && this.capacity == capacity && queue == []
    {
      this.id, this.capacity, queue := id, capacity, [];
    }

    predicate Full()
      reads this
    {
      |queue| >= capacity
    }
  }

  class Dispatcher {
    var workers: seq<WorkerSlot>
    var rrIndex: nat
    var rrCount: nat

    ghost predicate Valid()
      reads this
    {
      RrOk(Rr(rrIndex, rrCount), |workers|)
    }

    ghost function Fullness(): (f: seq<bool>)
      reads this, workers
    {
      seq(|workers|, i requires 0 <= i < |workers| reads this, workers => workers[i].Full())
    }

    constructor ()
      ensures Valid() && workers == [] && rrIndex == 0 && rrCount == 0
    {
      workers, rrIndex, rrCount := [], 0, 0;
    }

    method Register(w: WorkerSlot)
      requires Valid()
      modifies this
      ensures Valid() && workers == old(workers) + [w] && rrIndex == old(rrIndex) && rrCount == old(rrCount)
    {
      workers := workers + [w];
    }

    /** Removes the first registration of the slot, if any, and starts a new chunk; the cursor is brought back into
        range. */
    method Unregister(slot: WorkerSlot)
      requires Valid()
      modifies this
      ensures Valid() && rrCount == 0
      ensures rrIndex == if |workers| > 0 && old(rrIndex) >= |workers| then old(rrIndex) % |workers| else old(rrIndex)
      ensures slot !in old(workers) ==> workers == old(workers)
      ensures forall k :: 0 <= k < |old(workers)| && old(workers)[k] == slot && slot !in old(workers)[..k] ==>
                workers == old(workers)[..k] + old(workers)[k + 1..]
    {
      var i := 0;
      while i < |workers| && workers[i] != slot
        invariant i <= |workers| && slot !in workers[..i]
      {
        i := i + 1;
      }
      if i < |workers| {
        workers := workers[..i] + workers[i + 1..];
      }
      var remaining := |workers|;
      if rrIndex >= remaining && remaining > 0 {
        rrIndex := rrIndex % remaining;
      }
      rrCount := 0;
    }

    method Push(i: nat, pkt: Packet)
      requires Valid() && i < |workers|
      modifies workers
      ensures forall j :: 0 <= j < |workers| ==>
                workers[j].queue == if workers[i] == workers[j] then old(workers[j].queue) + [pkt] else old(workers[j].queue)
    {
      workers[i].queue := workers[i].queue + [pkt];
    }

    /** The dispatch step: the packet joins the queue of exactly one slot, one with room, or none when there is none. */
    method Dispatch(pkt: Packet) returns (target: Option<nat>)
      requires Valid()
      modifies this`rrIndex, this`rrCount, workers
      ensures Valid() && workers == old(workers)
      ensures (Rr(rrIndex, rrCount), target) == Dispatched(old(Rr(rrIndex, rrCount)), old(Fullness()))
      ensures target.None? <==> forall i :: 0 <= i < |old(Fullness())| ==> old(Fullness())[i]
      ensures target.Some? ==> target.value < |workers| && !old(Fullness())[target.value]
      ensures forall i :: 0 <= i < |workers| ==>
                workers[i].queue == if target.Some? && workers[i] == workers[target.value] then old(workers[i].queue) + [pkt] else old(workers[i].queue)
    {
      DispatchContract(Rr(rrIndex, rrCount), Fullness());
      var rr;
      rr, target := Select();
      if target.Some? {
        Push(target.value, pkt);
      }
      rrIndex, rrCount := rr.index, rr.count;
    }

    /** Which queue takes the next packet, and where the cursor goes. */
    method Select() returns (rr: Rr, target: Option<nat>)
      requires Valid()
      ensures (rr, target) == Dispatched(Rr(rrIndex, rrCount), Fullness())
    {
      var nw := |workers|;
      if nw == 0 { return Rr(rrIndex, rrCount), None; }
      RemainderUnique(rrIndex, 0, rrIndex, nw);
      var idx := rrIndex % nw;
      WrapOrZero(idx, nw);
      if !workers[idx].Full() {
        if rrCount + 1 >= CHUNK { return Rr((idx + 1) % nw, 0), Some(idx); }
        return Rr(rrIndex, rrCount + 1), Some(idx);
      }
      target := FindOther(idx);
      if target.Some? { return Rr(target.value, 1), target; }
      return Rr((idx + 1) % nw, 0), None;
    }

    /** The search for another worker with room. */
    method FindOther(idx: nat) returns (target: Option<nat>)
      requires idx < |workers|
      ensures target == FirstFree(Fullness(), idx, 1)
    {
      for i := 1 to |workers|
        invariant FirstFree(Fullness(), idx, 1) == FirstFree(Fullness(), idx, i)
      {
        WrapOnce(idx, i, |workers|);
        var alt := (idx + i) % |workers|;
        if !workers[alt].Full() { return Some(alt); }
      }
      return None;
    }
  }

  lemma WrapOrZero(idx: nat, n: nat)
    requires idx < n
    ensures (idx + 1) % n == Turn(idx, 1, n)
  {
    if n == 1 { assert (idx + 1) % n == 0; } else { WrapOnce(idx, 1, n); }
  }
}
