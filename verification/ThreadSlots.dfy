/** The thread-slot semaphore: acquireThreadSlot and its users in client.go and thread.go. */
module ThreadSlots {
  import opened Wrappers

  /** The capacity New gives the semaphore for a maxThreads setting; None is a nil channel, unlimited. */
  function Capacity(maxThreads: int): Option<nat> {
    if maxThreads == 0 then Some(64) else if maxThreads > 0 then Some(maxThreads) else None
  }

  /**
   One successful acquire and what became of it: the start RPC is in flight or has failed, the first
   turn runs, the session was returned to the caller, or it was dropped because its first turn failed.
   */
  datatype Phase = InFlight | RpcFailed | FirstTurn | Open | Dropped

  /** `once` is closeOnce; `owed` counts release functions called and not yet done, `releases` those done. */
  datatype Slot = Slot(phase: Phase, once: bool, owed: nat, releases: nat)

  datatype State = State(capacity: Option<nat>, occupied: nat, slots: seq<Slot>)

  /** Close can happen any number of times, also while an earlier one is still releasing. */
  datatype Step =
    | Acquire
    | RpcFails(n: nat)
    | RpcReturns(n: nat, initialInput: bool)
    | FirstTurnFails(n: nat)
    | FirstTurnReturns(n: nat)
    | Close(n: nat)
    | Release(n: nat)
    | ReleaseDefault(n: nat)

  function Start(maxThreads: int): State {
    State(Capacity(maxThreads), 0, [])
  }

  predicate Full(s: State) {
    s.capacity.Some? && s.occupied >= s.capacity.value
  }

  predicate In(s: State, n: nat, phase: Phase) {
    n < |s.slots| && s.slots[n].phase == phase
  }

  function Put(s: State, n: nat, slot: Slot): State
    requires n < |s.slots|
  {
    s.(slots := s.slots[n := slot])
  }

  /** SessionThread.Close. */
  function Closed(slot: Slot): Slot {
    if slot.once then slot else slot.(once := true, owed := slot.owed + 1)
  }

  function Released(slot: Slot): Slot
    requires slot.owed > 0
  {
    slot.(owed := slot.owed - 1, releases := slot.releases + 1)
  }

  function Next(s: State, st: Step): Option<State> {
    match st
    case Acquire =>
      if Full(s) then None
      else Some(s.(occupied := if s.capacity.Some? then s.occupied + 1
          else 0, slots := s.slots + [Slot(InFlight, false, 0, 0)]))
    case RpcFails(n) =>
      if In(s, n, InFlight) then Some(Put(s, n, s.slots[n].(phase := RpcFailed, owed := s.slots[n].owed + 1))) else None
    case RpcReturns(n, initial) =>
      if In(s, n, InFlight) then Some(Put(s, n, s.slots[n].(phase := if initial then FirstTurn else Open))) else None
    case FirstTurnFails(n) =>
      if In(s, n, FirstTurn) then Some(Put(s, n, Closed(s.slots[n]).(phase := Dropped))) else None
    case FirstTurnReturns(n) =>
      if In(s, n, FirstTurn) then Some(Put(s, n, s.slots[n].(phase := Open))) else None
    case Close(n) =>
      if In(s, n, Open) then Some(Put(s, n, Closed(s.slots[n]))) else None
    case Release(n) =>
      if n < |s.slots| && s.slots[n].owed > 0 && (s.capacity.Some? ==> s.occupied > 0) then
        Some(Put(s, n, Released(s.slots[n])).(occupied := if s.capacity.Some? then s.occupied - 1 else 0))
      else None
    case ReleaseDefault(n) =>
      if n < |s.slots| && s.slots[n].owed > 0 && s.capacity.Some? && s.occupied == 0 then
        Some(Put(s, n, Released(s.slots[n])))
      else None
  }

  ghost predicate Run(tr: seq<State>, steps: seq<Step>, maxThreads: int) {
    && |tr| == |steps| + 1
    && tr[0] == Start(maxThreads)
    && forall i :: 0 <= i < |steps| ==> Next(tr[i], steps[i]) == Some(tr[i + 1])
  }

  /** How many slots are not given back. */
  function Held(slots: seq<Slot>): nat {
    if slots == [] then 0
    else Held(slots[..|slots| - 1]) + (if slots[|slots| - 1].releases > 0 then 0 else 1)
  }

  lemma {:induction false} HeldAfterSet(slots: seq<Slot>, n: nat, slot: Slot)
    requires n < |slots|
    ensures Held(slots[n := slot]) + (if slots[n].releases > 0 then 0 else 1) ==
        Held(slots) + (if slot.releases > 0 then 0 else 1)
  {
    var k := |slots| - 1;
    if n == k {
      assert slots[n := slot][..k] == slots[..k];
    } else {
      HeldAfterSet(slots[..k], n, slot);
      assert slots[n := slot][..k] == slots[..k][n := slot];
    }
  }

  /** The start failed, or the session was closed. */
  predicate Ended(slot: Slot) {
    slot.phase.RpcFailed? || slot.once
  }

  /** The starts in flight and the sessions not closed. */
  function Live(slots: seq<Slot>): nat {
    if slots == [] then 0
    else Live(slots[..|slots| - 1]) + (if Ended(slots[|slots| - 1]) then 0 else 1)
  }

  /** The release functions called and not yet done. */
  function Owing(slots: seq<Slot>): nat {
    if slots == [] then 0 else Owing(slots[..|slots| - 1]) + slots[|slots| - 1].owed
  }

  lemma {:induction false} HeldIsLiveAndOwing(slots: seq<Slot>)
    requires forall n :: 0 <= n < |slots| ==> SlotInv(slots[n])
    ensures Held(slots) == Live(slots) + Owing(slots)
  {
    if slots == [] {
    } else {
      HeldIsLiveAndOwing(slots[..|slots| - 1]);
      assert SlotInv(slots[|slots| - 1]);
    }
  }

  predicate SlotInv(slot: Slot) {
    && slot.owed + slot.releases == (if Ended(slot) then 1 else 0)
    && (slot.once ==> slot.phase.Open? || slot.phase.Dropped?)
  }

  ghost predicate Inv(s: State) {
    && (s.capacity.Some? ==> s.occupied == Held(s.slots) <= s.capacity.value)
    && (forall n :: 0 <= n < |s.slots| ==> SlotInv(s.slots[n]))
  }

  lemma DefaultIsDead(s: State, n: nat)
    requires Inv(s)
    ensures Next(s, ReleaseDefault(n)).None?
  {
    if n < |s.slots| && s.slots[n].owed > 0 {
      assert SlotInv(s.slots[n]);
      HeldAfterSet(s.slots, n, Released(s.slots[n]));
    }
  }

  lemma PutKeeps(s: State, n: nat, slot: Slot, occupied: nat)
    requires Inv(s) && n < |s.slots| && SlotInv(slot)
    requires s.capacity.Some? ==>
        occupied + (if s.slots[n].releases > 0 then 0 else 1) == s.occupied + (if slot.releases > 0 then 0 else 1)
    requires occupied <= s.occupied
    ensures Inv(Put(s, n, slot).(occupied := occupied))
  {
    HeldAfterSet(s.slots, n, slot);
    hide SlotInv, Held;
  }

  lemma StepKeeps(s: State, st: Step, s': State)
    requires Inv(s) && Next(s, st) == Some(s')
    ensures Inv(s') && s'.capacity == s.capacity
  {
    match st
    case Acquire => assert s'.slots[..|s.slots|] == s.slots;
    case ReleaseDefault(n) => DefaultIsDead(s, n);
    case RpcFails(n) => assert SlotInv(s.slots[n]); hide Inv; PutKeeps(s, n, s'.slots[n], s.occupied);
    case RpcReturns(n, _) => assert SlotInv(s.slots[n]); hide Inv; PutKeeps(s, n, s'.slots[n], s.occupied);
    case FirstTurnFails(n) => assert SlotInv(s.slots[n]); hide Inv; PutKeeps(s, n, s'.slots[n], s.occupied);
    case FirstTurnReturns(n) => assert SlotInv(s.slots[n]); hide Inv; PutKeeps(s, n, s'.slots[n], s.occupied);
    case Close(n) => assert SlotInv(s.slots[n]); hide Inv; PutKeeps(s, n, s'.slots[n], s.occupied);
    case Release(n) => assert SlotInv(s.slots[n]); hide Inv; PutKeeps(s, n, s'.slots[n], s'.occupied);
  }

  lemma {:induction false} RunInv(tr: seq<State>, steps: seq<Step>, maxThreads: int, i: nat)
    requires Run(tr, steps, maxThreads) && i < |tr|
    ensures Inv(tr[i]) && tr[i].capacity == Capacity(maxThreads)
  {
    if i == 0 {
    } else {
      RunInv(tr, steps, maxThreads, i - 1);
      StepKeeps(tr[i - 1], steps[i - 1], tr[i]);
    }
  }

  /**
   Over every run: occupied slots are the starts in flight, the sessions not closed and the releases
   that have begun and are not yet done, never more than the limit. However often
   and concurrently Close is called, a slot is given back at most once, and only after its start
   failed or its session was closed; then it can be given back at once, and the `default` branch of
   release is never taken. A new thread can start exactly while fewer than the limit are held, or
   always when the setting is negative.
   */
  lemma SlotsAreConserved(tr: seq<State>, steps: seq<Step>, maxThreads: int, i: nat)
    requires Run(tr, steps, maxThreads) && i < |tr|
    ensures Held(tr[i].slots) == Live(tr[i].slots) + Owing(tr[i].slots)
    ensures maxThreads >= 0 ==> tr[i].occupied == Held(tr[i].slots) <= if maxThreads == 0 then 64 else maxThreads
    ensures forall n :: 0 <= n < |tr[i].slots| ==>
        tr[i].slots[n].releases <= 1 && (tr[i].slots[n].releases == 1 ==> Ended(tr[i].slots[n]))
    ensures forall n: nat :: n < |tr[i].slots| && Ended(tr[i].slots[n]) && tr[i].slots[n].releases == 0 ==>
        Next(tr[i], Release(n)).Some?
    ensures forall n: nat :: n < |tr[i].slots| && tr[i].slots[n].releases == 1 ==> Next(tr[i], Release(n)).None?
    ensures forall n: nat :: Next(tr[i], ReleaseDefault(n)).None?
    ensures Next(tr[i], Acquire).Some? <==>
        maxThreads < 0 || Held(tr[i].slots) < if maxThreads == 0 then 64 else maxThreads
  {
    RunInv(tr, steps, maxThreads, i);
    var s := tr[i];
    HeldIsLiveAndOwing(s.slots);
    hide Run;
    forall n: nat | n < |s.slots| ensures Ended(s.slots[n]) && s.slots[n].releases == 0 ==> Next(s, Release(n)).Some? {
      assert SlotInv(s.slots[n]);
      if s.slots[n].owed > 0 { HeldAfterSet(s.slots, n, Released(s.slots[n])); }
    }
    forall n: nat ensures Next(s, ReleaseDefault(n)).None? { DefaultIsDead(s, n); }
  }

  /** What each step does to the slots, said outright. */
  lemma StepEffect(s: State, n: nat)
    requires n < |s.slots|
    ensures s.capacity.Some? && s.occupied >= s.capacity.value ==> Next(s, Acquire).None?
    ensures s.capacity.None? || s.occupied < s.capacity.value ==>
              Next(s, Acquire) == Some(State(s.capacity, if s.capacity.Some? then s.occupied + 1 else 0,
                                             s.slots + [Slot(InFlight, false, 0, 0)]))
    ensures var slot := s.slots[n];
            && (slot.phase.InFlight? ==>
                  && Next(s, RpcFails(n)) == Some(Put(s, n, slot.(phase := RpcFailed, owed := slot.owed + 1)))
                  && Next(s, RpcReturns(n, true)) == Some(Put(s, n, slot.(phase := FirstTurn)))
                  && Next(s, RpcReturns(n, false)) == Some(Put(s, n, slot.(phase := Open))))
            && (slot.phase.FirstTurn? ==>
                  && Next(s, FirstTurnReturns(n)) == Some(Put(s, n, slot.(phase := Open)))
                  && (!slot.once ==>
                        Next(s, FirstTurnFails(n)) ==
                        Some(Put(s, n, slot.(phase := Dropped, once := true, owed := slot.owed + 1)))))
            && (slot.phase.Open? && !slot.once ==>
                  Next(s, Close(n)) == Some(Put(s, n, slot.(once := true, owed := slot.owed + 1))))
            && (slot.phase.Open? && slot.once ==> Next(s, Close(n)) == Some(s))
            && (slot.owed > 0 && (s.capacity.Some? ==> s.occupied > 0) ==>
                  Next(s, Release(n)) ==
                  Some(State(s.capacity, if s.capacity.Some? then s.occupied - 1 else 0,
                             s.slots[n := slot.(owed := slot.owed - 1, releases := slot.releases + 1)])))
  {
    assert s.slots[n := s.slots[n]] == s.slots;
  }

  /** In every run, a failed start, a failed first turn and a Close each end their slot, so that it is given back. */
  lemma EndedIsGivenBack(tr: seq<State>, steps: seq<Step>, maxThreads: int, i: nat, n: nat)
    requires Run(tr, steps, maxThreads) && i < |steps|
    requires steps[i] == RpcFails(n) || steps[i] == FirstTurnFails(n) || steps[i] == Close(n)
    ensures n < |tr[i + 1].slots| && Ended(tr[i + 1].slots[n])
    ensures tr[i + 1].slots[n].releases == 0 ==> Next(tr[i + 1], Release(n)).Some?
  {
    assert Next(tr[i], steps[i]) == Some(tr[i + 1]);
    SlotsAreConserved(tr, steps, maxThreads, i + 1);
    hide Run, Held, Live, Owing;
  }

  // ----- In place -----

  class ThreadSem {
    const capacity: Option<nat>
    var occupied: nat

    ghost predicate Valid()
      reads this
    {
      if capacity.Some? then occupied <= capacity.value else occupied == 0
    }

    constructor (maxThreads: int)
      ensures Valid() && capacity == Capacity(maxThreads) && occupied == 0
    {
      capacity, occupied := Capacity(maxThreads), 0;
    }

    /** acquireThreadSlot without waiting: false stands for a context that ends while it is full. */
    method Acquire() returns (ok: bool)
      requires Valid()
      modifies this
      ensures Valid()
      ensures ok == (capacity.None? || old(occupied) < capacity.value)
      ensures occupied == old(occupied) + if ok && capacity.Some? then 1 else 0
    {
      if capacity.None? { return true; }
      ok := occupied < capacity.value;
      if ok { occupied := occupied + 1; }
    }

    method Release()
      requires Valid()
      modifies this
      ensures Valid()
      ensures occupied == if old(occupied) > 0 then old(occupied) - 1 else 0
    {
      if capacity.Some? && occupied > 0 { occupied := occupied - 1; }
    }
  }

  class SessionThread {
    const sem: ThreadSem
    var closed: bool

    constructor (s: ThreadSem)
      ensures sem == s && !closed
    {
      sem, closed := s, false;
    }

    /** Close; closeOnce makes every call after the first do nothing. */
    method Close()
      requires sem.Valid()
      modifies this, sem
      ensures sem.Valid() && closed
      ensures sem.occupied == if old(closed) || old(sem.occupied) == 0 then old(sem.occupied) else old(sem.occupied) - 1
    {
      if !closed {
        closed := true;
        sem.Release();
      }
    }
  }

  /** StartThread and ResumeThread, with the outcomes of the RPC and of the first turn as parameters. */
  method StartThread(sem: ThreadSem, rpcOk: bool, initialInput: bool, turnOk: bool) returns (t: Option<SessionThread>)
    requires sem.Valid()
    modifies sem
    ensures sem.Valid()
    ensures t.Some? <==>
        (sem.capacity.None? || old(sem.occupied) < sem.capacity.value) && rpcOk && (initialInput ==> turnOk)
    ensures sem.occupied == old(sem.occupied) + if t.Some? && sem.capacity.Some? then 1 else 0
    ensures t.Some? ==> fresh(t.value) && t.value.sem == sem && !t.value.closed
  {
    var ok := sem.Acquire();
    if !ok { return None; }
    if !rpcOk {
      sem.Release();
      return None;
    }
    var st := new SessionThread(sem);
    if initialInput && !turnOk {
      st.Close();
      return None;
    }
    return Some(st);
  }
}
