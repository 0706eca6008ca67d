/**
 When a call can be lost. removePending deletes by id while Reconnect restarts ids, so a call
 left over from an old session can delete a newer call's entry. This is the only way.
 */
module SessionLoss {
  import opened Wrappers
  import opened Transport
  import opened SessionProtocol
  import opened SessionSafety
  import opened SessionRuns
  import opened SessionIsolation

  predicate Waits(call: Call) {
    call.phase.Writing? || call.phase.Waiting?
  }

  /** Somebody still has to answer call `c`, or its result or the end of the transport is there. */
  ghost predicate Reachable(s: State, c: nat) {
    s.done || (c < |s.calls| && s.calls[c].buf.Some?) || exists h :: Holds(s, h, c)
  }

  ghost predicate NoneLost(s: State) {
    forall c :: 0 <= c < |s.calls| && Waits(s.calls[c]) ==> Reachable(s, c)
  }

  /** Call `c` of an old session is about to delete the entry of a waiting call of the current one. */
  predicate Usurps(s: State, c: nat) {
    && c < |s.calls|
    && s.calls[c].session < s.sh.sessionID
    && s.calls[c].id in s.sh.pending
    && s.sh.pending[s.calls[c].id] < |s.calls|
    && Waits(s.calls[s.sh.pending[s.calls[c].id]])
  }

  predicate Loses(s: State, st: Step) {
    st.RemoveEntry? && Usurps(s, st.c)
  }

  /** Every waiting call of `s'` waits in `s`, and what could answer it there still can. */
  lemma CarryOver(s: State, s': State, moved: (Holder, nat) -> Holder)
    requires NoneLost(s) && (s.done ==> s'.done) && |s.calls| <= |s'.calls|
    requires forall c :: 0 <= c < |s.calls| && Waits(s'.calls[c]) ==>
        Waits(s.calls[c]) && (s.calls[c].buf.Some? ==> s'.calls[c].buf.Some?)
    requires forall h, c: nat :: c < |s.calls| && Holds(s, h, c) && Waits(s'.calls[c]) ==>
        s'.done || s'.calls[c].buf.Some? || Holds(s', moved(h, c), c)
    requires forall c :: |s.calls| <= c < |s'.calls| ==> Reachable(s', c)
    ensures NoneLost(s')
  {
    forall c | 0 <= c < |s.calls| && Waits(s'.calls[c]) ensures Reachable(s', c) {
      assert Reachable(s, c);
      if !s.done && s.calls[c].buf.None? {
        var h :| Holds(s, h, c);
        assert s'.done || s'.calls[c].buf.Some? || Holds(s', moved(h, c), c);
      }
    }
  }

  lemma StartLoss(s: State, s': State)
    requires Inv(s) && NoneLost(s) && StartCallStep(s) == Some(s') && Fits(s')
    ensures NoneLost(s')
  {
    RegisterKeepsLinear(s, s');
    hide Inv;
    assert Holds(s', Table, |s.calls|);
    forall h, c: nat | c < |s.calls| && Holds(s, h, c) ensures Holds(s', h, c) {}
    CarryOver(s, s', (h, c) => h);
  }

  lemma CallStepLoss(s: State, st: Step, s': State)
    requires NoneLost(s) && NextCall(s, st) == Some(s') && !st.RemoveEntry? && !st.StartCall?
    ensures NoneLost(s')
  {
    forall h, c: nat | c < |s.calls| && Holds(s, h, c) ensures Holds(s', h, c) {}
    CarryOver(s, s', (h, c) => h);
  }

  lemma UsurperLoses(s: State, c: nat, s': State)
    requires Inv(s) && RemoveEntryStep(s, c) == Some(s') && Usurps(s, c)
    ensures !NoneLost(s')
  {
    var v := s.sh.pending[s.calls[c].id];
    assert Holds(s, Table, v);
    assert forall h :: Holds(s', h, v) ==> Holds(s, h, v) && h != Table;
    assert !Reachable(s', v);
  }

  lemma OwnRemovalLosesNone(s: State, c: nat, s': State)
    requires CoreInv(s) && NoneLost(s) && RemoveEntryStep(s, c) == Some(s') && !Usurps(s, c)
    ensures NoneLost(s')
  {
    var id := s.calls[c].id;
    forall h, d: nat | d < |s.calls| && Holds(s, h, d) && Waits(s'.calls[d]) ensures Holds(s', h, d) {
      if h == Table && s.calls[d].id == id { assert false; }
    }
    hide CoreInv;
    CarryOver(s, s', (h, c) => h);
  }

  lemma RemoveLoss(s: State, c: nat, s': State)
    requires Inv(s) && NoneLost(s) && RemoveEntryStep(s, c) == Some(s')
    ensures NoneLost(s') <==> !Usurps(s, c)
  {
    assert CoreInv(s);
    hide Inv, CoreInv, NoneLost, RemoveEntryStep, Usurps;
    if Usurps(s, c) { UsurperLoses(s, c, s'); } else { OwnRemovalLosesNone(s, c, s'); }
  }

  /** A found response moves its channel from the table to the reader. */
  lemma TakeLoss(s: State, sid: nat, s': State)
    requires Inv(s) && NoneLost(s) && RouteStep(s, sid) == Some(s')
    requires At(s, sid).frame.InReply? && Take(s.sh, sid, At(s, sid).frame.id).Found?
    ensures NoneLost(s')
  {
    var ch := s.sh.pending[At(s, sid).frame.id];
    assert Holds(s, Table, ch) && Holds(s', Carrier(sid), ch);
    var moved := (h: Holder, c: nat) => if c == ch then Carrier(sid) else h;
    forall h, c: nat | c < |s.calls| && Holds(s, h, c) ensures Holds(s', moved(h, c), c) {}
    hide AnswerInv, CoreInv, LinearInv;
    CarryOver(s, s', moved);
  }

  lemma DeliverLoss(s: State, sid: nat, s': State)
    requires Inv(s) && NoneLost(s) && DeliverReplyStep(s, sid) == Some(s')
    ensures NoneLost(s')
  {
    var ch := At(s, sid).ch;
    forall h, c: nat | c < |s.calls| && Holds(s, h, c) ensures c == ch || Holds(s', h, c) {}
    hide AnswerInv, CoreInv, LinearInv;
    CarryOver(s, s', (h, c) => h);
  }

  lemma ReaderStepLoss(s: State, st: Step, s': State)
    requires Inv(s) && NoneLost(s) && NextReader(s, st) == Some(s') && !st.EndSession?
    ensures NoneLost(s')
  {
    var sid := st.sid;
    if st.Route? && At(s, sid).frame.InReply? && Take(s.sh, sid, At(s, sid).frame.id).Found? {
      TakeLoss(s, sid, s');
    } else if st.DeliverReply? {
      DeliverLoss(s, sid, s');
    } else {
      assert s'.sh == s.sh;
      ReaderFrame(s, st, s');
      hide Inv, NextReader;
      forall h, c: nat | Holds(s, h, c) && !s.done ensures Holds(s', h, c) {}
      CarryOver(s, s', (h, c) => h);
    }
  }

  lemma DetachedAll(s: State, s': State, fl: Flusher)
    requires NoneLost(s) && fl.todo == s.sh.pending.Values
    requires s'.calls == s.calls && s'.flushers == s.flushers + [fl] && (s.done ==> s'.done)
    requires forall sid :: sid in s.readers && s.readers[sid].pc.Delivering? ==>
        sid in s'.readers && s'.readers[sid] == s.readers[sid]
    ensures NoneLost(s')
  {
    var f := |s.flushers|;
    forall h, d: nat | Holds(s, h, d) ensures Holds(s', if h == Table then Detached(f) else h, d) {
      if h == Table { assert s.sh.pending[s.calls[d].id] in s.sh.pending.Values; }
    }
    CarryOver(s, s', (h, c) => if h == Table then Detached(f) else h);
  }

  lemma DetachLoss(s: State, st: Step, s': State)
    requires NoneLost(s) && Next(s, st) == Some(s') && Detaches(st)
    ensures NoneLost(s')
  {
    WhoSteps(s, st, s');
    hide Next, NoneLost;
    match st
    case EndSession(sid) =>
      if End(s.sh, sid).None? { StaleEndLoss(s, sid, s'); } else { DetachedAll(s, s', s'.flushers[|s.flushers|]); }
    case CloseTransport => DetachedAll(s, s', s'.flushers[|s.flushers|]);
    case SwapConn(_) => DetachedAll(s, s', s'.flushers[|s.flushers|]);
    case _ =>
  }

  lemma StaleEndLoss(s: State, sid: nat, s': State)
    requires NoneLost(s) && EndSessionStep(s, sid) == Some(s') && End(s.sh, sid).None?
    ensures NoneLost(s')
  {
    forall h, d: nat | Holds(s, h, d) ensures Holds(s', h, d) {}
    CarryOver(s, s', (h, c) => h);
  }

  lemma FlushSendLoss(s: State, f: nat, ch: nat, s': State)
    requires NoneLost(s) && FlushSendStep(s, f, ch) == Some(s')
    ensures NoneLost(s')
  {
    forall h, c: nat | c < |s.calls| && Holds(s, h, c) ensures c == ch || Holds(s', h, c) {}
    CarryOver(s, s', (h, c) => h);
  }

  lemma FlusherStepLoss(s: State, st: Step, s': State)
    requires NoneLost(s) && NextFlusher(s, st) == Some(s') && (st.CancelContext? || st.FinishFlush?)
    requires ConnInv(s)
    ensures NoneLost(s')
  {
    forall h, c: nat | Holds(s, h, c) ensures Holds(s', h, c) {}
    CarryOver(s, s', (h, c) => h);
  }

  lemma DefaultIsDead(s: State, f: nat, ch: nat)
    requires LinearInv(s)
    ensures Next(s, FlushDefault(f, ch)).None?
  {
    if f < |s.flushers| && ch in s.flushers[f].todo { assert Holds(s, Detached(f), ch); }
  }

  /** One step loses a call exactly when it is such a removal. */
  lemma StepLoss(s: State, st: Step, s': State)
    requires Inv(s) && NoneLost(s) && Next(s, st) == Some(s') && Fits(s')
    ensures NoneLost(s') <==> !Loses(s, st)
  {
    WhoSteps(s, st, s');
    assert LinearInv(s) && ConnInv(s);
    hide Inv, LinearInv, ConnInv, NoneLost;
    if Detaches(st) { DetachLoss(s, st, s'); }
    else if st.FlushDefault? { DefaultIsDead(s, st.f, st.ch); }
    else if st.RemoveEntry? { RemoveLoss(s, st.c, s'); }
    else if st.StartCall? { StartLoss(s, s'); }
    else if OfCall(st) { CallStepLoss(s, st, s'); }
    else if OfReader(st) { ReaderStepLoss(s, st, s'); }
    else if OfReply(st) { ReplyStepLoss(s, st, s'); }
    else if st.FlushSend? { FlushSendLoss(s, st.f, st.ch, s'); }
    else { FlusherStepLoss(s, st, s'); }
  }

  lemma ReplyStepLoss(s: State, st: Step, s': State)
    requires NoneLost(s) && NextReply(s, st) == Some(s')
    ensures NoneLost(s')
  {
    CarryOver(s, s', (h, c) => h);
  }

  /** No call is ever lost in a run exactly when no step of it is such a removal. */
  lemma {:induction false} NoLostCalls(tr: seq<State>, steps: seq<Step>, n: nat)
    requires Run(tr, steps) && n < |tr| && Fits(tr[n])
    ensures (forall i :: 0 <= i <= n ==> NoneLost(tr[i])) <==> (forall i :: 0 <= i < n ==> !Loses(tr[i], steps[i]))
  {
    if n == 0 {
    } else {
      Grows(tr[n - 1], steps[n - 1], tr[n]);
      NoLostCalls(tr, steps, n - 1);
      RunInv(tr, steps, n - 1);
      if NoneLost(tr[n - 1]) { StepLoss(tr[n - 1], steps[n - 1], tr[n]); }
    }
  }

  /** Somebody can act for call `c` now, or it sits in the table of a connection that has a reader. */
  ghost predicate CanProceed(s: State, c: nat)
    requires c < |s.calls|
  {
    || Next(s, SeeDone(c)).Some?
    || Next(s, Receive(c)).Some?
    || (exists sid :: At(s, sid).Delivering? && At(s, sid).ch == c && Next(s, DeliverReply(sid)).Some?)
    || (exists f: nat ::
          && f < |s.flushers| && c in s.flushers[f].todo
          && (Next(s, CancelContext(f)).Some? || Next(s, FlushSend(f, c)).Some?))
    || (Holds(s, Table, c) && s.sh.conn == Some(s.calls[c].conn) && Served(s))
  }

  /** In a run without such a removal no waiting call is ever stuck. */
  lemma NoStuckCall(tr: seq<State>, steps: seq<Step>, n: nat, c: nat)
    requires Run(tr, steps) && n < |tr| && Fits(tr[n])
    requires forall i :: 0 <= i < n ==> !Loses(tr[i], steps[i])
    requires c < |tr[n].calls| && tr[n].calls[c].phase.Waiting?
    ensures CanProceed(tr[n], c)
  {
    var s := tr[n];
    NoLostCalls(tr, steps, n);
    RunInv(tr, steps, n);
    RunIsolation(tr, steps, n);
    LinearOwnership(tr, steps, n);
    assert NoneLost(s) && Reachable(s, c);
    if !s.done && s.calls[c].buf.None? {
      var h :| Holds(s, h, c);
      match h
      case Table => assert s.sh.conn.Some?;
      case Carrier(sid) => assert At(s, sid).Delivering? && At(s, sid).ch == c && Next(s, DeliverReply(sid)).Some?;
      case Detached(f) => assert c in s.flushers[f].todo;
    }
  }

  // ----- A lost call stays lost -----

  /** Call `c` waits, and nothing is left that could answer it. */
  ghost predicate Lost(s: State, c: nat) {
    c < |s.calls| && Waits(s.calls[c]) && !Reachable(s, c)
  }

  /** The caller's context ends, or its own write fails. */
  predicate Leaves(st: Step, c: nat) {
    st == GiveUp(c) || st == WriteCall(c, false)
  }

  lemma NotInTable(s: State, c: nat)
    requires TableInv(s) && Lost(s, c)
    ensures c !in s.sh.pending.Values
  {
    assert !Holds(s, Table, c);
  }

  lemma CallKeepsLost(s: State, st: Step, s': State, c: nat)
    requires TableInv(s) && Lost(s, c) && NextCall(s, st) == Some(s') && !Leaves(st, c) && Fits(s')
    ensures Lost(s', c)
  {
    forall h ensures !Holds(s', h, c) { assert !Holds(s, h, c); }
  }

  lemma ReaderKeepsLost(s: State, st: Step, s': State, c: nat)
    requires TableInv(s) && Lost(s, c) && NextReader(s, st) == Some(s')
    ensures Lost(s', c)
  {
    NotInTable(s, c);
    if st.DeliverReply? { assert !Holds(s, Carrier(st.sid), c); }
    forall h ensures !Holds(s', h, c) {
      assert !Holds(s, h, c);
    }
  }

  lemma FlusherKeepsLost(s: State, st: Step, s': State, c: nat)
    requires TableInv(s) && Lost(s, c) && NextFlusher(s, st) == Some(s')
    ensures s'.done || Lost(s', c)
  {
    NotInTable(s, c);
    if st.FlushSend? { assert !Holds(s, Detached(st.f), c); }
    forall h ensures !Holds(s', h, c) {
      assert !Holds(s, h, c);
    }
  }

  lemma ReplyKeepsLost(s: State, st: Step, s': State, c: nat)
    requires Lost(s, c) && NextReply(s, st) == Some(s')
    ensures Lost(s', c)
  {
    forall h ensures !Holds(s', h, c) { assert !Holds(s, h, c); }
  }

  lemma StepKeepsLost(s: State, st: Step, s': State, c: nat)
    requires Inv(s) && Lost(s, c) && Next(s, st) == Some(s') && Fits(s')
    ensures s'.done || Lost(s', c) || Leaves(st, c)
  {
    WhoSteps(s, st, s');
    assert TableInv(s);
    hide Inv, TableInv, Lost, Next, NextCall, NextReader, NextReply, NextFlusher;
    if OfCall(st) {
      if !Leaves(st, c) { CallKeepsLost(s, st, s', c); }
    }
    else if OfReader(st) { ReaderKeepsLost(s, st, s', c); }
    else if OfReply(st) { ReplyKeepsLost(s, st, s', c); }
    else { FlusherKeepsLost(s, st, s', c); }
  }

  /**
   A lost call keeps waiting, unanswered, at every later point of a run until its own context ends,
   its own write fails, or Close has closed `done`.
   */
  lemma {:induction false} LostForGood(tr: seq<State>, steps: seq<Step>, i: nat, j: nat, c: nat)
    requires Run(tr, steps) && i <= j < |tr| && Fits(tr[j]) && Lost(tr[i], c)
    requires !tr[j].done && forall k :: i <= k < j ==> !Leaves(steps[k], c)
    ensures Lost(tr[j], c)
    decreases j
  {
    hide Run, Next, Inv, Fits, Lost;
    if i == j {
    } else {
      LastStep(tr, steps, j);
      LostForGood(tr, steps, i, j - 1, c);
      StepKeepsLost(tr[j - 1], steps[j - 1], tr[j], c);
    }
  }

  lemma LastStep(tr: seq<State>, steps: seq<Step>, j: nat)
    requires Run(tr, steps) && 0 < j < |tr| && Fits(tr[j])
    ensures |tr| == |steps| + 1 && Next(tr[j - 1], steps[j - 1]) == Some(tr[j])
    ensures Fits(tr[j - 1]) && Inv(tr[j - 1]) && (tr[j - 1].done ==> tr[j].done)
  {
    Grows(tr[j - 1], steps[j - 1], tr[j]);
    RunInv(tr, steps, j - 1);
    DoneStays(tr[j - 1], steps[j - 1], tr[j]);
    hide Inv, Next;
  }

  lemma DoneStays(s: State, st: Step, s': State)
    requires Next(s, st) == Some(s')
    ensures s.done ==> s'.done
  {
    WhoSteps(s, st, s');
    hide Next;
    if OfCall(st) { hide NextFlusher, NextReader, NextReply; }
    else if OfReader(st) { hide NextFlusher, NextCall, NextReply; }
    else if OfReply(st) { hide NextFlusher, NextCall, NextReader; }
    else { hide NextCall, NextReader, NextReply; }
  }

  const OLD_CALL := Call(1, 1, Conn(1), Removing(ErrContext), None, 0)

  /** Session 1's only call was cancelled and is about to run removePending. */
  lemma CancelledCall() returns (tr: seq<State>, steps: seq<Step>)
    ensures Run(tr, steps)
    ensures var s := Start(Some(Conn(1)), true);
            tr[|steps|] == s.(sh := s.sh.(nextID := 1, pending := map[1 := 0]), calls := [OLD_CALL],
                wire := [CallSent(Conn(1), 0)])
  {
    hide NextReader, NextReply, NextFlusher;
    steps := [StartCall, WriteCall(0, true), GiveUp(0)];
    var s0 := Start(Some(Conn(1)), true);
    var s1 := Next(s0, steps[0]).value;
    var s2 := Next(s1, steps[1]).value;
    tr := [s0, s1, s2, Next(s2, steps[2]).value];
  }

  /** It does happen: that call deletes the entry of the first call of session 2. */
  lemma LostCall() returns (tr: seq<State>, steps: seq<Step>)
    ensures Run(tr, steps) && Fits(tr[|steps|])
    ensures !NoneLost(tr[|steps|])
  {
    var tr0, steps0 := CancelledCall();
    var s := tr0[|steps0|];
    var s1 := SwapStep(s, Conn(2)).value;
    var s2 := StartCallStep(s1).value;
    var s3 := RemoveEntryStep(s2, 0).value;
    hide NextReader, NextReply;
    Extend(tr0, steps0, SwapConn(Conn(2)), s1);
    Extend(tr0 + [s1], steps0 + [SwapConn(Conn(2))], StartCall, s2);
    Extend(tr0 + [s1] + [s2], steps0 + [SwapConn(Conn(2))] + [StartCall], RemoveEntry(0), s3);
    tr, steps := tr0 + [s1] + [s2] + [s3], steps0 + [SwapConn(Conn(2))] + [StartCall] + [RemoveEntry(0)];
    assert s3.calls[1].buf.None? && Waits(s3.calls[1]);
    forall h ensures !Holds(s3, h, 1) {}
  }
}
