/**
 RunStreamed (thread.go) over the event broker: the turn mutex, the subscription made after
 TurnStart, the filtering goroutine, and its three deferred steps in order.

 One SessionThread and a shared broker. Streams are numbered in the order they take the mutex;
 the last field of a stream counts the close calls on its output channel.
 */
module Streaming {
  import opened Wrappers
  import opened EventBrokers
  import opened TurnEvents

  datatype Phase =
    | Starting
    | Started
    | Receiving
    | Sending(e: Event)
    | Exiting
    | Unsubscribed
    | OutClosed
    | Released

  datatype Stream =
      Stream(turnID: string, subscribed: bool, h: nat, id: Option<nat>, out: seq<Event>, phase: Phase, closes: nat)

  datatype Lock = Free | ByStream(n: nat) | ByRun

  datatype State = State(b: Broker, threadID: string, lock: Lock, streams: seq<Stream>)

  /** Env is any step of another client of the broker. */
  datatype Step =
    | Env(step: EventBrokers.Step)
    | LockForRun
    | UnlockAfterRun
    | Begin
    | StartFails(n: nat)
    | StartReturns(n: nat, turnID: string)
    | SubscribeStream(n: nat)
    | Take(n: nat)
    | SeeClosed(n: nat)
    | ContextDone(n: nat)
    | Emit(n: nat)
    | CloseSub(n: nat)
    | CloseOut(n: nat)
    | Unlock(n: nat)

  function Start(threadID: string): State {
    State(EMPTY, threadID, Free, [])
  }

  /** A handle that belongs to some stream is read by that stream only. */
  predicate Private(s: State, step: EventBrokers.Step) {
    step.DoRead? && exists n :: 0 <= n < |s.streams| && s.streams[n].subscribed && s.streams[n].h == step.h
  }

  function Set(s: State, n: nat, st: Stream): State
    requires n < |s.streams|
  {
    s.(streams := s.streams[n := st])
  }

  function Next(s: State, step: Step): Option<State> {
    match step
    case Env(bs) =>
      if Private(s, bs) || EventBrokers.Next(s.b, bs).None? then None
      else Some(s.(b := EventBrokers.Next(s.b, bs).value))
    case LockForRun => if s.lock.Free? then Some(s.(lock := ByRun)) else None
    case UnlockAfterRun => if s.lock.ByRun? then Some(s.(lock := Free)) else None
    case Begin =>
      if s.lock.Free? then
        Some(s.(lock := ByStream(|s.streams|), streams := s.streams + [Stream("", false, 0, None, [], Starting, 0)]))
      else None
    case _ => if step.n < |s.streams| then NextStream(s, step, step.n, s.streams[step.n]) else None
  }

  function NextStream(s: State, step: Step, n: nat, st: Stream): Option<State>
    requires n < |s.streams|
  {
    match step
    case StartFails(_) => if st.phase.Starting? then Some(Set(s, n, st.(phase := Released)).(lock := Free)) else None
    case StartReturns(_, turnID) => if st.phase.Starting? then
        Some(Set(s, n, st.(phase := Started, turnID := turnID))) else None
    case SubscribeStream(_) =>
      if st.phase.Started? then
        var (b, id) := AfterSubscribe(s.b);
        Some(Set(s, n, st.(phase := Receiving, subscribed := true, h := |s.b.queues|, id := id)).(b := b))
      else None
    case Take(_) =>
      if st.phase.Receiving? && AfterRead(s.b, st.h).Some? then
        var e := s.b.queues[st.h].buf[0];
        Some(Set(s, n, if MatchesTurn(e, s.threadID, st.turnID) then st.(phase := Sending(e))
            else st).(b := AfterRead(s.b, st.h).value))
      else None
    case SeeClosed(_) =>
      if st.phase.Receiving? && st.h < |s.b.queues| && !s.b.queues[st.h].open && s.b.queues[st.h].buf == [] then
        Some(Set(s, n, st.(phase := Exiting)))
      else None
    case ContextDone(_) =>
      if st.phase.Receiving? || st.phase.Sending? then Some(Set(s, n, st.(phase := Exiting))) else None
    case Emit(_) =>
      if st.phase.Sending? then
        var e := st.phase.e;
        Some(Set(s, n, st.(out := st.out + [e], phase := if EndsStream(e) then Exiting else Receiving)))
      else None
    case CloseSub(_) =>
      if st.phase.Exiting? then
        Some(Set(s, n, st.(phase := Unsubscribed)).(b := if st.id.Some? then AfterUnsubscribe(s.b, st.id.value)
            else s.b))
      else None
    case CloseOut(_) =>
      if st.phase.Unsubscribed? then Some(Set(s, n, st.(phase := OutClosed, closes := st.closes + 1))) else None
    case Unlock(_) =>
      if st.phase.OutClosed? then Some(Set(s, n, st.(phase := Released)).(lock := Free)) else None
    case _ => None
  }

  ghost predicate Run(tr: seq<State>, steps: seq<Step>) {
    && |tr| == |steps| + 1
    && tr[0] == Start(tr[0].threadID)
    && forall i :: 0 <= i < |steps| ==> Next(tr[i], steps[i]) == Some(tr[i + 1])
  }

  // ----- Invariants -----

  /** Which phases come after the subscription, and which after the output channel is closed. */
  predicate Lifecycle(st: Stream) {
    && (st.phase.Starting? || st.phase.Started? ==> !st.subscribed)
    && (!st.phase.Starting? && !st.phase.Started? && !st.phase.Released? ==> st.subscribed)
    && st.closes == if st.phase.OutClosed? || (st.phase.Released? && st.subscribed) then 1 else 0
  }

  /** The mutex: every stream that is not released holds it, so there is at most one. */
  ghost predicate LockInv(s: State) {
    && (forall n :: 0 <= n < |s.streams| && !s.streams[n].phase.Released? ==> s.lock == ByStream(n))
    && (forall n :: 0 <= n < |s.streams| && s.lock == ByStream(n) ==> !s.streams[n].phase.Released?)
    && (s.lock.ByStream? ==> s.lock.n < |s.streams|)
    && (forall n :: 0 <= n < |s.streams| ==> Lifecycle(s.streams[n]))
  }

  /** What a stream has sent, against what it has read from its queue. */
  ghost predicate Tracks(s: State, st: Stream)
    requires st.h < |s.b.queues|
  {
    var all := StreamOf(s.b.queues[st.h].read, s.threadID, st.turnID);
    && st.out <= all
    && (st.phase.Receiving? ==> st.out == all && !Ended(all))
    && (st.phase.Sending? ==> st.out + [st.phase.e] == all && !Ended(st.out))
  }

  ghost predicate StreamInv(s: State) {
    && (forall n :: 0 <= n < |s.streams| && s.streams[n].subscribed ==>
        s.streams[n].h < |s.b.queues| && Tracks(s, s.streams[n]))
    && (forall n :: 0 <= n < |s.streams| && !s.streams[n].subscribed ==> s.streams[n].out == [])
    && (forall m, n :: 0 <= m < n < |s.streams| && s.streams[m].subscribed && s.streams[n].subscribed ==>
        s.streams[m].h != s.streams[n].h)
  }

  ghost predicate Inv(s: State) {
    EventBrokers.Inv(s.b) && LockInv(s) && StreamInv(s)
  }

  lemma StreamStepKeepsLock(s: State, step: Step, s': State, n: nat)
    requires LockInv(s) && n < |s.streams| && NextStream(s, step, n, s.streams[n]) == Some(s')
    ensures LockInv(s')
  {
    hide AfterSubscribe, AfterRead, AfterUnsubscribe, MatchesTurn, EndsStream;
    assert Lifecycle(s.streams[n]);
    assert |s'.streams| == |s.streams| && forall m :: 0 <= m < |s.streams| && m != n ==> s'.streams[m] == s.streams[m];
  }

  lemma BeginKeepsLock(s: State, s': State)
    requires LockInv(s) && Next(s, Begin) == Some(s')
    ensures LockInv(s')
  {
    hide NextStream, EventBrokers.Next;
  }

  lemma LockStep(s: State, step: Step, s': State)
    requires LockInv(s) && Next(s, step) == Some(s')
    ensures LockInv(s')
  {
    hide NextStream, Lifecycle, EventBrokers.Next;
    if step.Env? || step.LockForRun? || step.UnlockAfterRun? {
    } else if step.Begin? {
      BeginKeepsLock(s, s');
    } else {
      hide LockInv, Private;
      StreamStepKeepsLock(s, step, s', step.n);
    }
  }

  /** A broker step changes neither what a stream has read nor which handles exist. */
  lemma EnvKeeps(s: State, bs: EventBrokers.Step, s': State)
    requires Inv(s) && Next(s, Env(bs)) == Some(s')
    ensures EventBrokers.Inv(s'.b) && StreamInv(s')
  {
    EventBrokers.StepKeeps(s.b, bs, s'.b);
    hide EventBrokers.Inv, LockInv;
    forall n | 0 <= n < |s.streams| && s.streams[n].subscribed
      ensures s.streams[n].h < |s'.b.queues| && Tracks(s', s.streams[n])
    {
      assert Tracks(s, s.streams[n]);
      assert bs != DoRead(s.streams[n].h);
      assert EventBrokers.Inv(s.b);
      EventBrokers.StepIsFinal(s.b, bs, s'.b, s.streams[n].h);
    }
  }

  /** Stream `n` moves on over an unchanged queue. */
  lemma SetKeeps(s: State, n: nat, st: Stream)
    requires StreamInv(s) && n < |s.streams|
    requires st.subscribed <==> s.streams[n].subscribed
    requires st.h == s.streams[n].h
    requires st.subscribed ==> st.h < |s.b.queues| && Tracks(s, st)
    requires !st.subscribed ==> st.out == []
    ensures StreamInv(Set(s, n, st))
  {
    var s' := Set(s, n, st);
    forall m | 0 <= m < |s'.streams| && s'.streams[m].subscribed
        ensures s'.streams[m].h < |s'.b.queues| && Tracks(s', s'.streams[m]) {
      if m != n { assert Tracks(s, s.streams[m]); } else { assert Tracks(s, st); }
    }
  }

  lemma SubscribeStep(s: State, n: nat, s': State)
    requires Inv(s) && Next(s, SubscribeStream(n)) == Some(s')
    ensures EventBrokers.Inv(s'.b) && StreamInv(s')
  {
    SubscribeKeeps(s.b);
    assert StreamOf([], s.threadID, s.streams[n].turnID) == [];
    forall m | 0 <= m < |s'.streams| && s'.streams[m].subscribed
        ensures s'.streams[m].h < |s'.b.queues| && Tracks(s', s'.streams[m]) {
      if m != n { assert Tracks(s, s.streams[m]); }
    }
    hide EventBrokers.Inv, Tracks, LockInv;
  }

  /** One more event read: sent on if it matches, and the stream had not ended before it. */
  lemma TakeTracks(s: State, n: nat, s': State)
    requires n < |s.streams| && s.streams[n].h < |s.b.queues| && Tracks(s, s.streams[n]) && Next(s, Take(n)) == Some(s')
    ensures s'.streams[n].h < |s'.b.queues| && Tracks(s', s'.streams[n])
  {
    var st := s.streams[n];
    StreamSnoc(s.b.queues[st.h].read, s.b.queues[st.h].buf[0], s.threadID, st.turnID);
    hide StreamOf, MatchesTurn, EndsStream;
  }

  lemma TakeStep(s: State, n: nat, s': State)
    requires Inv(s) && Next(s, Take(n)) == Some(s')
    ensures EventBrokers.Inv(s'.b) && StreamInv(s')
  {
    ReadKeeps(s.b, s.streams[n].h);
    hide EventBrokers.Inv, LockInv;
    assert Tracks(s, s.streams[n]);
    TakeTracks(s, n, s');
    hide StreamOf, MatchesTurn, EndsStream;
    forall m | 0 <= m < |s'.streams| && s'.streams[m].subscribed && m != n
        ensures s'.streams[m].h < |s'.b.queues| && Tracks(s', s'.streams[m]) {
      assert Tracks(s, s.streams[m]) && s'.b.queues[s.streams[m].h] == s.b.queues[s.streams[m].h];
    }
  }

  lemma CloseSubStep(s: State, n: nat, s': State)
    requires Inv(s) && Next(s, CloseSub(n)) == Some(s')
    ensures EventBrokers.Inv(s'.b) && StreamInv(s')
  {
    var st := s.streams[n];
    assert Tracks(s, st);
    SetKeeps(s, n, st.(phase := Unsubscribed));
    var mid := Set(s, n, st.(phase := Unsubscribed));
    if st.id.Some? {
      UnsubscribeKeeps(s.b, st.id.value);
      forall m | 0 <= m < |mid.streams| && mid.streams[m].subscribed
          ensures mid.streams[m].h < |s'.b.queues| && Tracks(s', mid.streams[m]) {
        assert Tracks(mid, mid.streams[m]);
        assert s'.b.queues[mid.streams[m].h].read == mid.b.queues[mid.streams[m].h].read;
      }
      hide EventBrokers.Inv, Tracks, LockInv;
    }
  }

  lemma StepKeeps(s: State, step: Step, s': State)
    requires Inv(s) && Next(s, step) == Some(s')
    ensures Inv(s')
  {
    LockStep(s, step, s');
    match step
    case Env(bs) => EnvKeeps(s, bs, s');
    case SubscribeStream(n) => SubscribeStep(s, n, s');
    case Take(n) => TakeStep(s, n, s');
    case CloseSub(n) => CloseSubStep(s, n, s');
    case LockForRun => SameStreams(s, s');
    case UnlockAfterRun => SameStreams(s, s');
    case Begin => BeginStep(s, s');
    case StartFails(n) => MoveStep(s, n, step, s');
    case StartReturns(n, _) => MoveStep(s, n, step, s');
    case SeeClosed(n) => MoveStep(s, n, step, s');
    case ContextDone(n) => MoveStep(s, n, step, s');
    case Emit(n) => MoveStep(s, n, step, s');
    case CloseOut(n) => MoveStep(s, n, step, s');
    case Unlock(n) => MoveStep(s, n, step, s');
  }

  lemma SameStreams(s: State, s': State)
    requires StreamInv(s) && s' == s.(lock := s'.lock)
    ensures StreamInv(s')
  {
    assert forall n :: 0 <= n < |s.streams| && s.streams[n].subscribed ==> Tracks(s, s.streams[n]);
  }

  lemma BeginStep(s: State, s': State)
    requires StreamInv(s) && Next(s, Begin) == Some(s')
    ensures StreamInv(s')
  {
    forall n | 0 <= n < |s'.streams| && s'.streams[n].subscribed
        ensures s'.streams[n].h < |s'.b.queues| && Tracks(s', s'.streams[n]) {
      assert Tracks(s, s.streams[n]);
    }
  }

  /** The steps of a stream that leave the broker alone. */
  lemma MoveStep(s: State, n: nat, step: Step, s': State)
    requires StreamInv(s) && LockInv(s) && n < |s.streams| && NextStream(s, step, n, s.streams[n]) == Some(s')
    requires !step.SubscribeStream? && !step.Take? && !step.CloseSub?
    ensures StreamInv(s')
  {
    var st, st' := s.streams[n], s'.streams[n];
    if st.subscribed { assert Tracks(s, st); }
    assert st'.subscribed ==> Tracks(s, st');
    SetKeeps(s, n, st');
    SameStreams(Set(s, n, st'), s');
  }

  lemma {:induction false} RunInv(tr: seq<State>, steps: seq<Step>, i: nat)
    requires Run(tr, steps) && i < |tr|
    ensures Inv(tr[i])
  {
    if i == 0 {
    } else {
      RunInv(tr, steps, i - 1);
      StepKeeps(tr[i - 1], steps[i - 1], tr[i]);
    }
  }

  // ----- What this gives over whole runs -----

  /**
   What a stream has sent is a prefix of the matching events published since its subscription, cut
   just after the first turn/completed or error; and it is that whole sequence if it ends that way.
   */
  lemma StreamsAreCorrect(tr: seq<State>, steps: seq<Step>, i: nat, n: nat)
    requires Run(tr, steps) && i < |tr| && n < |tr[i].streams| && tr[i].streams[n].subscribed
    ensures var s, st := tr[i], tr[i].streams[n];
            && st.h < |s.b.queues| && s.b.queues[st.h].from <= |s.b.log|
            && var all := StreamOf(s.b.log[s.b.queues[st.h].from..], s.threadID, st.turnID);
            && st.out <= all
            && (Ended(st.out) ==> st.out == all)
  {
    RunInv(tr, steps, i);
    var s, st := tr[i], tr[i].streams[n];
    var q := s.b.queues[st.h];
    assert Follows(s.b, q) && Tracks(s, st);
    var since := s.b.log[q.from..];
    assert q.read <= since by {
      assert (q.read + q.buf)[..|q.read|] == q.read;
      assert since[..|q.read|] == s.b.log[q.from..q.from + |q.read| + |q.buf|][..|q.read|];
    }
    assert since == q.read + since[|q.read|..];
    hide EventBrokers.Inv, LockInv, StreamInv, Follows, Run;
    StreamExtends(q.read, since[|q.read|..], s.threadID, st.turnID);
    if Ended(st.out) { EndedPrefix(q.read, st.out, s.threadID, st.turnID); }
  }

  /** A prefix of a stream that has ended is the whole stream. */
  lemma EndedPrefix(log: seq<Event>, out: seq<Event>, threadID: string, turnID: string)
    requires out <= StreamOf(log, threadID, turnID) && Ended(out)
    ensures out == StreamOf(log, threadID, turnID)
  {
    StreamIsCut(log, threadID, turnID);
    hide StreamOf, Matching, EndsStream;
  }

  /**
   Streams and Runs of one thread never overlap. A stream that subscribed closes its output channel
   exactly once: after its last send, and before it releases the mutex; the others never close one.
   */
  lemma StreamsNeverOverlap(tr: seq<State>, steps: seq<Step>, i: nat)
    requires Run(tr, steps) && i < |tr|
    ensures forall m, n :: 0 <= m < n < |tr[i].streams| ==>
              tr[i].streams[m].phase.Released? || tr[i].streams[n].phase.Released?
    ensures tr[i].lock.ByRun? ==> forall n :: 0 <= n < |tr[i].streams| ==> tr[i].streams[n].phase.Released?
    ensures forall n :: 0 <= n < |tr[i].streams| && tr[i].streams[n].subscribed ==>
              tr[i].streams[n].phase.Released? ==> tr[i].streams[n].closes == 1
    ensures forall n :: 0 <= n < |tr[i].streams| && !tr[i].streams[n].subscribed ==>
        tr[i].streams[n].closes == 0 && tr[i].streams[n].out == []
    ensures forall n :: 0 <= n < |tr[i].streams| && tr[i].streams[n].phase.Sending? ==> tr[i].streams[n].closes == 0
    ensures forall n :: 0 <= n < |tr[i].streams| ==> tr[i].streams[n].closes <= 1
  {
    RunInv(tr, steps, i);
    hide Run, StreamOf;
  }

  // ----- Between TurnStart and the subscription -----

  lemma StepFrom(s: State, step: Step, s': State, n: nat, start: nat)
    requires Inv(s) && Next(s, step) == Some(s') && n < |s'.streams| && s'.streams[n].subscribed
    requires start <= |s.b.log|
    requires n < |s.streams| && s.streams[n].subscribed ==>
               s.streams[n].h < |s.b.queues| && start <= s.b.queues[s.streams[n].h].from
    ensures s'.streams[n].h < |s'.b.queues| && start <= s'.b.queues[s'.streams[n].h].from
  {
    if step.Env? {
      hide StreamInv, LockInv, Private;
      EventBrokers.StepIsFinal(s.b, step.step, s'.b, s.streams[n].h);
    } else {
      hide Inv, Private, EventBrokers.Next, StreamOf, MatchesTurn, EndsStream;
    }
  }

  lemma LogGrows(s: State, step: Step, s': State)
    requires Next(s, step) == Some(s')
    ensures |s.b.log| <= |s'.b.log| && s'.threadID == s.threadID
  {
    hide StreamOf, MatchesTurn, EndsStream, Private;
    if step.Env? { EventBrokers.StepGrows(s.b, step.step, s'.b); }
  }

  lemma LastStep(tr: seq<State>, steps: seq<Step>, i: nat)
    requires Run(tr, steps) && 0 < i < |tr|
    ensures |tr| == |steps| + 1 && Next(tr[i - 1], steps[i - 1]) == Some(tr[i]) && Inv(tr[i - 1])
  {
    RunInv(tr, steps, i - 1);
    hide Inv, Next;
  }

  /** A stream that is not subscribed yet will only see what is published from now on. */
  lemma {:induction false} StartsLater(tr: seq<State>, steps: seq<Step>, b: nat, i: nat, n: nat)
    requires Run(tr, steps) && b <= i < |tr| && (n < |tr[b].streams| ==> !tr[b].streams[n].subscribed)
    ensures |tr[b].b.log| <= |tr[i].b.log|
    ensures n < |tr[i].streams| && tr[i].streams[n].subscribed ==>
              tr[i].streams[n].h < |tr[i].b.queues| && |tr[b].b.log| <= tr[i].b.queues[tr[i].streams[n].h].from
    decreases i
  {
    hide Run, Inv, Next;
    if b == i {
    } else {
      LastStep(tr, steps, i);
      StartsLater(tr, steps, b, i - 1, n);
      LogGrows(tr[i - 1], steps[i - 1], tr[i]);
      if n < |tr[i].streams| && tr[i].streams[n].subscribed {
        StepFrom(tr[i - 1], steps[i - 1], tr[i], n, |tr[b].b.log|);
      }
    }
  }

  /** The events published after stream `n`, begun at step `b`, has started and before it subscribes. */
  function Gap(tr: seq<State>, b: nat, i: nat, n: nat): seq<Event>
    requires b < |tr| && i < |tr| && n < |tr[i].streams| && tr[i].streams[n].h < |tr[i].b.queues|
    requires |tr[b].b.log| <= tr[i].b.queues[tr[i].streams[n].h].from <= |tr[i].b.log|
  {
    tr[i].b.log[|tr[b].b.log|..tr[i].b.queues[tr[i].streams[n].h].from]
  }

  lemma GapIsThere(tr: seq<State>, steps: seq<Step>, b: nat, i: nat, n: nat)
    requires Run(tr, steps) && b < i < |tr| && steps[b] == Begin && n == |tr[b].streams|
    requires n < |tr[i].streams| && tr[i].streams[n].subscribed
    ensures tr[i].streams[n].h < |tr[i].b.queues|
    ensures |tr[b].b.log| <= tr[i].b.queues[tr[i].streams[n].h].from <= |tr[i].b.log|
  {
    StreamsAreCorrect(tr, steps, i, n);
    StartsLater(tr, steps, b, i, n);
  }

  /**
   What a stream makes of everything published since it started. While the events of the gap do not
   end the turn, exactly the matching ones among them are missing in front of what it can send; so it
   sends the whole stream, when it ends, if and only if no event of the gap matches. An early ending
   event leaves nothing of the turn to send.
   */
  lemma MissedExactly(tr: seq<State>, steps: seq<Step>, b: nat, i: nat, n: nat)
    requires Run(tr, steps) && b < i < |tr| && steps[b] == Begin && n == |tr[b].streams|
    requires n < |tr[i].streams| && tr[i].streams[n].subscribed
    ensures tr[i].streams[n].h < |tr[i].b.queues|
    ensures |tr[b].b.log| <= tr[i].b.queues[tr[i].streams[n].h].from <= |tr[i].b.log|
    ensures var s, st := tr[i], tr[i].streams[n];
            var gap := StreamOf(Gap(tr, b, i, n), s.threadID, st.turnID);
            var since := StreamOf(s.b.log[s.b.queues[st.h].from..], s.threadID, st.turnID);
            var all := StreamOf(s.b.log[|tr[b].b.log|..], s.threadID, st.turnID);
            && st.out <= since
            && (gap == [] <==> NoneMatches(Gap(tr, b, i, n), s.threadID, st.turnID))
            && (Ended(gap) ==> all == gap)
            && (!Ended(gap) ==> all == gap + since)
            && (!Ended(gap) && Ended(st.out) ==>
                (st.out == all <==> NoneMatches(Gap(tr, b, i, n), s.threadID, st.turnID)))
  {
    GapIsThere(tr, steps, b, i, n);
    StreamsAreCorrect(tr, steps, i, n);
    hide Run, MatchesTurn, EndsStream, StreamOf, NoneMatches;
    var s, st := tr[i], tr[i].streams[n];
    var early, later := Gap(tr, b, i, n), s.b.log[s.b.queues[st.h].from..];
    assert s.b.log[|tr[b].b.log|..] == early + later;
    EmptyStream(early, s.threadID, st.turnID);
    if Ended(StreamOf(early, s.threadID, st.turnID)) {
      StreamExtends(early, later, s.threadID, st.turnID);
    } else {
      StreamSplits(early, later, s.threadID, st.turnID);
    }
  }

  /** In particular, when no event of the gap matches, what the stream sends is at all times a prefix of everything. */
  lemma NothingMissed(tr: seq<State>, steps: seq<Step>, b: nat, i: nat, n: nat)
    requires Run(tr, steps) && b < i < |tr| && steps[b] == Begin && n == |tr[b].streams|
    requires n < |tr[i].streams| && tr[i].streams[n].subscribed
    ensures tr[i].streams[n].h < |tr[i].b.queues|
    ensures |tr[b].b.log| <= tr[i].b.queues[tr[i].streams[n].h].from <= |tr[i].b.log|
    ensures NoneMatches(Gap(tr, b, i, n), tr[i].threadID, tr[i].streams[n].turnID) ==>
              var all := StreamOf(tr[i].b.log[|tr[b].b.log|..], tr[i].threadID, tr[i].streams[n].turnID);
              tr[i].streams[n].out <= all && (Ended(tr[i].streams[n].out) ==> tr[i].streams[n].out == all)
  {
    MissedExactly(tr, steps, b, i, n);
    hide Run, StreamOf, NoneMatches, Gap, EndsStream;
  }

  /** An event published in between is missed: this run's stream never sends it, though it matches. */
  lemma EarlyEventIsMissed(threadID: string, turnID: string) returns (tr: seq<State>, steps: seq<Step>)
    ensures Run(tr, steps) && tr[0] == Start(threadID) && |steps| == 4 && steps[0] == Begin
    ensures var s := tr[4];
            && |s.streams| == 1 && s.streams[0].subscribed && s.streams[0].turnID == turnID
            && s.streams[0].h < |s.b.queues| && s.b.queues[s.streams[0].h].from <= |s.b.log|
            && StreamOf(s.b.log, threadID, turnID) == s.b.log != []
            && StreamOf(s.b.log[s.b.queues[s.streams[0].h].from..], threadID, turnID) == []
  {
    var e := Event(TURN_COMPLETED, CarriesTurn(threadID, turnID, Some(turnID)));
    steps := [Begin, StartReturns(0, turnID), Env(DoPublish(e)), SubscribeStream(0)];
    var s0 := Start(threadID);
    var s1 := Next(s0, steps[0]).value;
    var s2 := Next(s1, steps[1]).value;
    var s3 := Next(s2, steps[2]).value;
    var s4 := Next(s3, steps[3]).value;
    tr := [s0, s1, s2, s3, s4];
  }

  // ----- What each step does, said outright -----

  /** A stream that receives sends on every matching event it reads, and stops after one that ends the turn. */
  lemma ReceiveEffect(s: State, n: nat)
    requires n < |s.streams| && s.streams[n].phase.Receiving? && s.streams[n].h < |s.b.queues|
    ensures var st, q := s.streams[n], s.b.queues[s.streams[n].h];
            && (Next(s, Take(n)).Some? <==> q.buf != [])
            && (q.buf != [] ==>
                  && Consumed(s.b, st.h, Next(s, Take(n)).value.b)
                  && Next(s, Take(n)).value.lock == s.lock
                  && Next(s, Take(n)).value.streams ==
                     s.streams[n := if MatchesTurn(q.buf[0], s.threadID, st.turnID) then
                         st.(phase := Sending(q.buf[0])) else st])
            && (Next(s, SeeClosed(n)).Some? <==> !q.open && q.buf == [])
            && (Next(s, SeeClosed(n)).Some? ==> Next(s, SeeClosed(n)) == Some(Set(s, n, st.(phase := Exiting))))
            && Next(s, ContextDone(n)) == Some(Set(s, n, st.(phase := Exiting)))
  {
    hide MatchesTurn, AfterSubscribe, AfterUnsubscribe, EventBrokers.Next, Private;
  }

  lemma SendEffect(s: State, n: nat)
    requires n < |s.streams| && s.streams[n].phase.Sending?
    ensures var st, e := s.streams[n], s.streams[n].phase.e;
            && Next(s, Emit(n)) ==
               Some(Set(s, n, st.(out := st.out + [e],
                                  phase := if e.name == "turn/completed" || e.name == "error" then Exiting
                                      else Receiving)))
            && Next(s, ContextDone(n)) == Some(Set(s, n, st.(phase := Exiting)))
  {
    hide MatchesTurn, AfterSubscribe, AfterUnsubscribe, AfterRead, EventBrokers.Next, Private;
  }

  /** The start, and the three deferred steps: give up the subscription, close the output channel, release the mutex. */
  lemma LifeEffect(s: State, n: nat)
    requires n < |s.streams|
    ensures Next(s, Begin).Some? <==> s.lock.Free?
    ensures var st := s.streams[n];
            && (st.phase.Starting? ==>
                  && Next(s, StartFails(n)) == Some(Set(s, n, st.(phase := Released)).(lock := Free))
                  && forall id :: Next(s, StartReturns(n, id)) == Some(Set(s, n, st.(phase := Started, turnID := id))))
            && (st.phase.Started? ==>
                  && Next(s, SubscribeStream(n)).Some?
                  && var s' := Next(s, SubscribeStream(n)).value;
                     && Joined(s.b, s'.b, s'.streams[n].id)
                     && s' == Set(s, n, st.(phase := Receiving, subscribed := true, h := |s.b.queues|,
                                            id := s'.streams[n].id)).(b := s'.b))
            && (st.phase.Unsubscribed? ==>
                  Next(s, CloseOut(n)) == Some(Set(s, n, st.(phase := OutClosed, closes := st.closes + 1))))
            && (st.phase.OutClosed? ==> Next(s, Unlock(n)) == Some(Set(s, n, st.(phase := Released)).(lock := Free)))
  {
    SubscribeEffect(s.b);
    hide MatchesTurn, AfterUnsubscribe, AfterRead, EventBrokers.Next, Private;
  }

  lemma CloseSubEffect(s: State, n: nat)
    requires EventBrokers.Inv(s.b) && n < |s.streams| && s.streams[n].phase.Exiting?
    ensures Next(s, CloseSub(n)).Some?
    ensures var st, s' := s.streams[n], Next(s, CloseSub(n)).value;
            && s'.streams == s.streams[n := st.(phase := Unsubscribed)] && s'.lock == s.lock
            && if st.id.Some? then Left(s.b, st.id.value, s'.b) else s'.b == s.b
  {
    if s.streams[n].id.Some? { UnsubscribeEffect(s.b, s.streams[n].id.value); }
    hide MatchesTurn, AfterSubscribe, AfterUnsubscribe, AfterRead, EventBrokers.Next, Private;
  }

  // ----- Why a stream stops -----

  /** The broker step behind a step, if there is one. */
  function Behind(s: State, step: Step): Option<EventBrokers.Step> {
    match step
    case Env(bs) => Some(bs)
    case SubscribeStream(_) => Some(DoSubscribe)
    case Take(n) => if n < |s.streams| then Some(DoRead(s.streams[n].h)) else None
    case CloseSub(n) =>
      if n < |s.streams| && s.streams[n].id.Some? then Some(DoUnsubscribe(s.streams[n].id.value)) else None
    case _ => None
  }

  lemma BehindIsRight(s: State, step: Step, s': State)
    requires Next(s, step) == Some(s')
    ensures match Behind(s, step) case Some(bs) => EventBrokers.Next(s.b, bs) == Some(s'.b) case None => s'.b == s.b
  {
    hide MatchesTurn, AfterSubscribe, AfterUnsubscribe, AfterRead, AfterPublish, AfterClose, Private;
  }

  /** A closed queue stays closed, with what it holds and what was read from it. */
  lemma ClosedQueueStays(s: State, step: Step, s': State, h: nat)
    requires EventBrokers.Inv(s.b) && Next(s, step) == Some(s') && h < |s.b.queues|
    ensures h < |s'.b.queues|
    ensures !s.b.queues[h].open ==>
              && !s'.b.queues[h].open
              && s'.b.queues[h].read + s'.b.queues[h].buf == s.b.queues[h].read + s.b.queues[h].buf
  {
    BehindIsRight(s, step, s');
    hide Next, EventBrokers.Inv, EventBrokers.Next;
    match Behind(s, step)
    case Some(bs) => EventBrokers.StepIsFinal(s.b, bs, s'.b, h);
    case None =>
  }

  /** All its queue ever got has been read and sent on. */
  ghost predicate Drained(s: State, st: Stream) {
    && st.h < |s.b.queues| && !s.b.queues[st.h].open
    && st.out == StreamOf(s.b.queues[st.h].read + s.b.queues[st.h].buf, s.threadID, st.turnID)
  }

  predicate Over(st: Stream) {
    st.subscribed && !st.phase.Receiving? && !st.phase.Sending?
  }

  /** The step in which a stream stops. */
  lemma StopsFor(s: State, step: Step, s': State, n: nat)
    requires Inv(s) && Next(s, step) == Some(s') && n < |s'.streams| && Over(s'.streams[n])
    requires n < |s.streams| ==> !Over(s.streams[n])
    ensures Ended(s'.streams[n].out) || step == ContextDone(n) || (step == SeeClosed(n) && Drained(s', s'.streams[n]))
  {
    if n < |s.streams| && s.streams[n].subscribed { assert Tracks(s, s.streams[n]); }
    hide MatchesTurn, AfterSubscribe, AfterUnsubscribe, AfterRead, EventBrokers.Next, EventBrokers.Inv, StreamOf,
        Private;
    if step == SeeClosed(n) {
      var q := s.b.queues[s.streams[n].h];
      assert q.read + q.buf == q.read;
    }
  }

  /** Afterwards it sends nothing more. */
  lemma StaysOver(s: State, step: Step, s': State, n: nat)
    requires Inv(s) && Next(s, step) == Some(s') && n < |s.streams| && Over(s.streams[n])
    ensures n < |s'.streams| && Over(s'.streams[n])
    ensures s'.streams[n].out == s.streams[n].out && s'.streams[n].h == s.streams[n].h
    ensures s'.streams[n].turnID == s.streams[n].turnID && s'.threadID == s.threadID
  {
    assert Lifecycle(s.streams[n]);
    hide MatchesTurn, AfterSubscribe, AfterUnsubscribe, AfterRead, EventBrokers.Next, EventBrokers.Inv, StreamOf,
        Private;
  }

  lemma StaysDrained(s: State, step: Step, s': State, n: nat)
    requires Inv(s) && Next(s, step) == Some(s') && n < |s.streams| && Over(s.streams[n]) && Drained(s, s.streams[n])
    ensures n < |s'.streams| && Drained(s', s'.streams[n])
  {
    StaysOver(s, step, s', n);
    ClosedQueueStays(s, step, s', s.streams[n].h);
    hide Next, Inv, StreamOf;
  }

  /**
   In every run, a stream that stops has sent the event that ends its turn, or its context was done,
   or it saw its queue closed by the broker and has sent all the matching events that queue ever got.
   */
  lemma {:induction false} WhyItStops(tr: seq<State>, steps: seq<Step>, i: nat, n: nat)
    requires Run(tr, steps) && i < |tr| && n < |tr[i].streams| && Over(tr[i].streams[n])
    ensures || Ended(tr[i].streams[n].out)
            || (exists k :: 0 <= k < i && k < |steps| && steps[k] == ContextDone(n))
            || ((exists k :: 0 <= k < i && k < |steps| && steps[k] == SeeClosed(n)) && Drained(tr[i], tr[i].streams[n]))
  {
    if i == 0 {
    } else {
      hide Run, Next, Inv, Ended, Drained, Over;
      LastStep(tr, steps, i);
      var s, st, s' := tr[i - 1], steps[i - 1], tr[i];
      if n < |s.streams| && Over(s.streams[n]) {
        WhyItStops(tr, steps, i - 1, n);
        StaysOver(s, st, s', n);
        if Drained(s, s.streams[n]) { StaysDrained(s, st, s', n); }
      } else {
        StopsFor(s, st, s', n);
      }
    }
  }

  /**
   In every run a stream that still receives has sent on all it has read, and one that sends lacks just
   that event.
   */
  lemma SendsAllItReads(tr: seq<State>, steps: seq<Step>, i: nat, n: nat)
    requires Run(tr, steps) && i < |tr| && n < |tr[i].streams| && tr[i].streams[n].subscribed
    ensures tr[i].streams[n].h < |tr[i].b.queues|
    ensures var s, st := tr[i], tr[i].streams[n];
            var all := StreamOf(s.b.queues[st.h].read, s.threadID, st.turnID);
            && (st.phase.Receiving? ==> st.out == all)
            && (st.phase.Sending? ==> st.out + [st.phase.e] == all)
  {
    RunInv(tr, steps, i);
    assert Tracks(tr[i], tr[i].streams[n]);
    hide Run, StreamOf;
  }

  // ----- The subscription is given up -----

  /** While its queue is open, the stream's own id is the one it is subscribed under. */
  ghost predicate Owns(s: State, st: Stream) {
    && (st.h < |s.b.queues| && s.b.queues[st.h].open ==>
          st.id.Some? && st.id.value in s.b.subs && s.b.subs[st.id.value] == st.h)
    && (st.phase.Unsubscribed? || st.phase.OutClosed? || st.phase.Released? ==>
          st.h < |s.b.queues| && !s.b.queues[st.h].open)
  }

  lemma OldHandles(b: Broker, bs: EventBrokers.Step, b': Broker, id: nat)
    requires EventBrokers.Inv(b) && EventBrokers.Next(b, bs) == Some(b') && id in b.subs && b.subs[id] < |b'.queues|
    requires b'.queues[b.subs[id]].open
    ensures id in b'.subs && b'.subs[id] == b.subs[id]
  {
    EventBrokers.StepKeeps(b, bs, b');
    var h := b.subs[id];
    assert Subscribed(b', h);
    var other :| other in b'.subs && b'.subs[other] == h;
    hide RefinesLog;
  }

  lemma OwnsStays(s: State, step: Step, s': State, n: nat)
    requires Inv(s) && Next(s, step) == Some(s') && n < |s.streams| && s.streams[n].subscribed && Owns(s, s.streams[n])
    requires n < |s'.streams| && s'.streams[n].h == s.streams[n].h && s'.streams[n].id == s.streams[n].id
    requires s'.streams[n].phase == s.streams[n].phase
    ensures Owns(s', s'.streams[n])
  {
    var h := s.streams[n].h;
    assert h < |s.b.queues|;
    ClosedQueueStays(s, step, s', h);
    BehindIsRight(s, step, s');
    hide Next, Inv, EventBrokers.Next, EventBrokers.Inv, StreamInv, LockInv;
    if s'.b.queues[h].open && Behind(s, step).Some? {
      OldHandles(s.b, Behind(s, step).value, s'.b, s.streams[n].id.value);
    }
  }

  lemma StepOwns(s: State, step: Step, s': State, n: nat)
    requires Inv(s) && Next(s, step) == Some(s') && n < |s'.streams| && s'.streams[n].subscribed
    requires n < |s.streams| && s.streams[n].subscribed ==> Owns(s, s.streams[n])
    ensures Owns(s', s'.streams[n])
  {
    if n < |s.streams| && s.streams[n].subscribed {
      assert s.streams[n].h < |s.b.queues| && Lifecycle(s.streams[n]);
      if step == CloseSub(n) {
        CloseSubEffect(s, n);
        hide Inv, StreamInv, LockInv, EventBrokers.Inv, Next;
      } else {
        Moves(s, step, s', n);
        if s'.streams[n].phase == s.streams[n].phase {
          hide Next, Inv, EventBrokers.Inv, StreamInv, LockInv, Owns;
          OwnsStays(s, step, s', n);
        } else {
          hide Next, Inv, EventBrokers.Inv, StreamInv, LockInv;
        }
      }
    } else {
      assert step == SubscribeStream(n) by {
        hide AfterSubscribe, AfterRead, AfterUnsubscribe, MatchesTurn, EventBrokers.Next, EventBrokers.Inv, StreamInv;
      }
      LifeEffect(s, n);
      hide Next, Inv, EventBrokers.Inv, StreamInv, LockInv;
    }
  }

  /** Other than by giving the subscription up, a stream changes phase without touching the broker, or by reading. */
  lemma Moves(s: State, step: Step, s': State, n: nat)
    requires Inv(s) && Next(s, step) == Some(s') && n < |s.streams| && s.streams[n].subscribed && step != CloseSub(n)
    ensures n < |s'.streams| && s'.streams[n].h == s.streams[n].h && s'.streams[n].id == s.streams[n].id
    ensures s'.streams[n].phase != s.streams[n].phase ==>
              && s'.b.subs == s.b.subs && |s'.b.queues| == |s.b.queues|
              && (forall h :: 0 <= h < |s.b.queues| ==> s'.b.queues[h].open == s.b.queues[h].open)
              && (s'.streams[n].phase.Unsubscribed? || s'.streams[n].phase.OutClosed?
                  || s'.streams[n].phase.Released? ==>
                    s.streams[n].phase.Unsubscribed? || s.streams[n].phase.OutClosed? || s.streams[n].phase.Released?)
  {
    assert Lifecycle(s.streams[n]);
    hide AfterSubscribe, AfterUnsubscribe, MatchesTurn, EndsStream, EventBrokers.Next, EventBrokers.Inv, StreamInv,
        Private;
  }

  lemma {:induction false} RunOwns(tr: seq<State>, steps: seq<Step>, i: nat, n: nat)
    requires Run(tr, steps) && i < |tr| && n < |tr[i].streams| && tr[i].streams[n].subscribed
    ensures Owns(tr[i], tr[i].streams[n])
  {
    if i == 0 {
    } else {
      hide Run, Next, Inv, Owns;
      LastStep(tr, steps, i);
      if n < |tr[i - 1].streams| && tr[i - 1].streams[n].subscribed { RunOwns(tr, steps, i - 1, n); }
      StepOwns(tr[i - 1], steps[i - 1], tr[i], n);
    }
  }

  /** In every run a stream has given up its subscription before it closes its output channel. */
  lemma SubscriptionIsGivenUp(tr: seq<State>, steps: seq<Step>, i: nat, n: nat)
    requires Run(tr, steps) && i < |tr| && n < |tr[i].streams| && tr[i].streams[n].subscribed
    requires tr[i].streams[n].phase.Unsubscribed? || tr[i].streams[n].closes > 0
    ensures tr[i].streams[n].h < |tr[i].b.queues| && !tr[i].b.queues[tr[i].streams[n].h].open
    ensures !Subscribed(tr[i].b, tr[i].streams[n].h)
  {
    RunOwns(tr, steps, i, n);
    RunInv(tr, steps, i);
    assert Lifecycle(tr[i].streams[n]);
    hide Run, StreamInv, RefinesLog;
  }
}
