/**
 Sessions do not disturb each other: replies stay on their connection, contexts end with their
 session, a stale reader touches nothing current, and every held channel has a live holder.
 */
module SessionIsolation {
  import opened Wrappers
  import opened Transport
  import opened SessionProtocol
  import opened SessionSafety
  import opened SessionRuns

  // ----- What is written where -----

  /** One envelope per call and per inbound request, on the connection it belongs to. */
  ghost predicate WireInv(s: State) {
    && (forall r :: 0 <= r < |s.requests| ==>
          && 1 <= s.requests[r].session <= |s.conns|
          && s.requests[r].conn == s.conns[s.requests[r].session - 1]
          && (s.requests[r].stage.Sending? ==> s.requests[r].stage.target == s.requests[r].conn))
    && (forall k :: 0 <= k < |s.wire| && s.wire[k].ReplySent? ==>
          s.wire[k].req < |s.requests| && s.requests[s.wire[k].req].stage.Settled?
          && s.wire[k].conn == s.requests[s.wire[k].req].conn)
    && (forall k :: 0 <= k < |s.wire| && s.wire[k].CallSent? ==>
          s.wire[k].call < |s.calls| && !s.calls[s.wire[k].call].phase.Writing?
          && s.wire[k].conn == s.calls[s.wire[k].call].conn)
    && WrittenOnce(s.wire)
  }

  ghost predicate WrittenOnce(wire: seq<Sent>) {
    && (forall k, m :: 0 <= k < m < |wire| && wire[k].ReplySent? && wire[m].ReplySent? ==> wire[k].req != wire[m].req)
    && (forall k, m :: 0 <= k < m < |wire| && wire[k].CallSent? && wire[m].CallSent? ==> wire[k].call != wire[m].call)
  }

  lemma OneMore(wire: seq<Sent>, w: Sent)
    requires WrittenOnce(wire)
    requires forall k :: 0 <= k < |wire| && wire[k].ReplySent? && w.ReplySent? ==> wire[k].req != w.req
    requires forall k :: 0 <= k < |wire| && wire[k].CallSent? && w.CallSent? ==> wire[k].call != w.call
    ensures WrittenOnce(wire + [w])
  {
  }

  /** Nothing is written; what exists keeps its session and connection, and new requests are unanswered. */
  ghost predicate SameWire(s: State, s': State) {
    && s'.wire == s.wire
    && s.conns <= s'.conns && s.requests <= s'.requests && |s.calls| <= |s'.calls|
    && (forall r :: |s.requests| <= r < |s'.requests| ==>
          && 1 <= s'.requests[r].session <= |s'.conns|
          && s'.requests[r].conn == s'.conns[s'.requests[r].session - 1]
          && s'.requests[r].stage.Unanswered?)
    && (forall c :: 0 <= c < |s.calls| ==>
          s'.calls[c].conn == s.calls[c].conn && (s'.calls[c].phase.Writing? ==> s.calls[c].phase.Writing?))
  }

  lemma SameWireKeeps(s: State, s': State)
    requires WireInv(s) && SameWire(s, s')
    ensures WireInv(s')
  {
    hide WrittenOnce;
  }

  lemma QuietCallStep(s: State, st: Step, s': State)
    requires NextCall(s, st) == Some(s') && !st.WriteCall?
    ensures SameWire(s, s')
  {
  }

  lemma QuietReaderStep(s: State, st: Step, s': State)
    requires NextReader(s, st) == Some(s') && !st.Offer?
    ensures SameWire(s, s')
  {
  }

  lemma QuietFlusherStep(s: State, st: Step, s': State)
    requires NextFlusher(s, st) == Some(s')
    ensures SameWire(s, s')
  {
  }

  /** An inbound request is bound to the connection its reader reads from. */
  lemma OfferIsQuiet(s: State, sid: nat, s': State)
    requires ConnInv(s) && OfferStep(s, sid) == Some(s')
    ensures SameWire(s, s')
  {
  }

  lemma WriteCallKeepsWire(s: State, c: nat, ok: bool, s': State)
    requires WireInv(s) && WriteCallStep(s, c, ok) == Some(s')
    ensures WireInv(s')
  {
    OneMore(s.wire, CallSent(s.calls[c].conn, c));
    hide WrittenOnce;
  }

  /** A reply moves on; `send` may only have picked the connection the request arrived on. */
  lemma StageKeepsWire(s: State, r: nat, stage: ReplyStage)
    requires WireInv(s) && r < |s.requests| && !s.requests[r].stage.Settled?
    requires stage.Sending? ==> stage.target == s.requests[r].conn
    ensures WireInv(SetRequest(s, r, stage))
  {
    hide WrittenOnce;
  }

  lemma AppendReplyKeepsWire(s: State, r: nat)
    requires WireInv(s) && r < |s.requests| && s.requests[r].stage.Settled?
    requires forall k :: 0 <= k < |s.wire| && s.wire[k].ReplySent? ==> s.wire[k].req != r
    ensures WireInv(s.(wire := s.wire + [ReplySent(s.requests[r].conn, r)]))
  {
    OneMore(s.wire, ReplySent(s.requests[r].conn, r));
    hide WrittenOnce;
  }

  lemma WriteReplyKeepsWire(s: State, r: nat, s': State)
    requires WireInv(s) && WriteReplyStep(s, r) == Some(s')
    ensures WireInv(s')
  {
    assert forall k :: 0 <= k < |s.wire| && s.wire[k].ReplySent? ==> s.wire[k].req != r;
    assert s.requests[r].stage.target == s.requests[r].conn;
    StageKeepsWire(s, r, Settled);
    hide WireInv;
    AppendReplyKeepsWire(SetRequest(s, r, Settled), r);
  }

  lemma ReplyStepKeepsWire(s: State, st: Step, s': State)
    requires ConnInv(s) && CallInv(s) && WireInv(s) && NextReply(s, st) == Some(s')
    ensures WireInv(s')
  {
    if st.WriteReply? {
      WriteReplyKeepsWire(s, st.r, s');
    } else {
      assert st.LookupReply? && s'.requests[st.r].stage.Sending? ==>
          s'.requests[st.r].stage.target == s.requests[st.r].conn;
      hide ConnInv, CallInv, WireInv;
      StageKeepsWire(s, st.r, s'.requests[st.r].stage);
    }
  }

  lemma StepKeepsWire(s: State, st: Step, s': State)
    requires ConnInv(s) && CallInv(s) && WireInv(s) && Next(s, st) == Some(s')
    ensures WireInv(s')
  {
    WhoSteps(s, st, s');
    hide Next, NextReply, NextFlusher, ConnInv, CallInv, WireInv, SameWire;
    if OfReply(st) {
      hide NextCall, NextReader;
      ReplyStepKeepsWire(s, st, s');
    } else if st.WriteCall? {
      hide NextReader;
      WriteCallKeepsWire(s, st.c, st.ok, s');
    } else {
      hide NextCall;
      if st.Offer? {
        OfferIsQuiet(s, st.sid, s');
      } else {
        hide NextReader;
        if OfCall(st) { QuietCallStep(s, st, s'); }
        else if OfReader(st) { QuietReaderStep(s, st, s'); }
        else { QuietFlusherStep(s, st, s'); }
      }
      SameWireKeeps(s, s');
    }
  }

  // ----- Contexts -----

  ghost predicate Cancelling(s: State, k: nat) {
    exists f: nat :: f < |s.flushers| && s.flushers[f].toCancel == Some(k)
  }

  /** Exactly the session with an open connection has a live context. */
  ghost predicate ContextInv(s: State) {
    && (s.sh.conn.Some? ==> s.sh.cancel == Some(s.sh.sessionID))
    && (s.sh.cancel.Some? ==> s.sh.cancel.value == s.sh.sessionID)
    && (s.sh.conn.None? && !s.sh.closed && 1 <= s.sh.sessionID ==> s.sh.cancel.None?)
    && (forall k :: k in s.cancelled ==> k <= s.sh.sessionID && (s.sh.conn.Some? ==> k < s.sh.sessionID))
    && (forall k: nat :: Cancelling(s, k) ==> k <= s.sh.sessionID && (s.sh.conn.Some? ==> k < s.sh.sessionID))
    && (forall k: nat :: k <= s.sh.sessionID ==>
          k in s.cancelled || Cancelling(s, k) || (s.sh.cancel == Some(k) && !s.sh.closed))
  }

  /** The table has a reader, running or about to be started, whenever there is a connection. */
  ghost predicate Served(s: State) {
    || (s.sh.sessionID in s.readers && !s.readers[s.sh.sessionID].pc.Stopped?)
    || exists f: nat :: f < |s.flushers| && Starts(s.flushers[f], s.sh.sessionID)
  }

  predicate Starts(fl: Flusher, sid: nat) {
    fl.kind.Swapping? && fl.kind.sid == sid && !fl.finished
  }

  /** Flushers that are done hold nothing, and a closed transport is done or still being flushed. */
  ghost predicate ServiceInv(s: State) {
    && (s.sh.conn.Some? ==> Served(s))
    && (forall f :: 0 <= f < |s.flushers| && s.flushers[f].finished ==>
        s.flushers[f].todo == {} && s.flushers[f].toCancel.None?)
    && (s.sh.closed ==>
        s.done || exists f: nat :: f < |s.flushers| && s.flushers[f].kind.Closing? && !s.flushers[f].finished)
  }

  lemma AppendedContexts(s: State, s': State, fl: Flusher)
    requires s'.flushers == s.flushers + [fl]
    ensures forall k: nat :: Cancelling(s', k) <==> Cancelling(s, k) || fl.toCancel == Some(k)
  {
    forall k: nat ensures Cancelling(s', k) <==> Cancelling(s, k) || fl.toCancel == Some(k) {
      if Cancelling(s, k) {
        var f: nat :| f < |s.flushers| && s.flushers[f].toCancel == Some(k);
        assert s'.flushers[f].toCancel == Some(k);
      }
      if fl.toCancel == Some(k) { assert s'.flushers[|s.flushers|].toCancel == Some(k); }
    }
  }

  predicate Detaches(st: Step) {
    st.EndSession? || st.CloseTransport? || st.SwapConn?
  }

  /** Detaching hands the stored cancel function to the flusher, if anything is detached at all. */
  lemma DetachFrame(s: State, st: Step, s': State)
    requires Next(s, st) == Some(s') && Detaches(st)
    ensures s'.done == s.done && s'.cancelled == s.cancelled
    ensures s'.flushers == s.flushers ==> s'.sh == s.sh
    ensures s'.flushers != s.flushers ==>
              && s'.flushers == s.flushers + [s'.flushers[|s.flushers|]]
              && s'.flushers[|s.flushers|].toCancel == s.sh.cancel
              && !s'.flushers[|s.flushers|].finished
    ensures forall sid :: sid in s.readers && sid != s.sh.sessionID ==> sid in s'.readers
    ensures (s'.flushers == s.flushers && s.sh.sessionID in s.readers
             && !s.readers[s.sh.sessionID].pc.Stopped? && !s.sh.closed) ==>
              s.sh.sessionID in s'.readers && !s'.readers[s.sh.sessionID].pc.Stopped?
  {
    WhoSteps(s, st, s');
    hide Next, NextCall, NextReply;
    if st.EndSession? { hide NextFlusher; } else { hide NextReader; }
  }

  lemma DetachShared(s: State, st: Step, s': State)
    requires Next(s, st) == Some(s') && Detaches(st) && s'.flushers != s.flushers
    ensures !s.sh.closed && |s'.flushers| == |s.flushers| + 1
    ensures st.EndSession? ==>
        s'.sh.conn.None? && s'.sh.cancel.None? && s'.sh.sessionID == s.sh.sessionID && !s'.sh.closed
    ensures st.CloseTransport? ==>
              && s'.sh.conn.None? && s'.sh.cancel == s.sh.cancel && s'.sh.sessionID == s.sh.sessionID && s'.sh.closed
              && s'.flushers[|s.flushers|].kind.Closing?
    ensures st.SwapConn? ==>
              && s'.sh.conn.Some? && s'.sh.sessionID == Inc64(s.sh.sessionID) && s'.sh.cancel == Some(s'.sh.sessionID)
              && !s'.sh.closed && |s'.conns| == |s.conns| + 1
              && Starts(s'.flushers[|s.flushers|], s'.sh.sessionID)
  {
    WhoSteps(s, st, s');
    hide Next, NextCall, NextReply;
    if st.EndSession? { hide NextFlusher; } else { hide NextReader; }
  }

  lemma DetachKeepsContext(s: State, st: Step, s': State)
    requires CallInv(s) && ContextInv(s) && Next(s, st) == Some(s') && Fits(s')
    requires Detaches(st)
    ensures ContextInv(s')
  {
    DetachFrame(s, st, s');
    assert |s.conns| == s.sh.sessionID;
    hide Next, CallInv;
    if s'.flushers == s.flushers {
      SameContextsKeep(s, s');
    } else {
      DetachShared(s, st, s');
      AppendedContexts(s, s', s'.flushers[|s.flushers|]);
    }
  }

  lemma CancelKeepsContext(s: State, f: nat, s': State)
    requires ContextInv(s) && Next(s, CancelContext(f)) == Some(s')
    ensures ContextInv(s')
  {
    var v := s.flushers[f].toCancel.value;
    assert Cancelling(s, v);
    forall k: nat | k != v && Cancelling(s, k) ensures Cancelling(s', k) {
      var g: nat :| g < |s.flushers| && s.flushers[g].toCancel == Some(k);
      assert s'.flushers[g].toCancel == Some(k);
    }
    forall k: nat | Cancelling(s', k) ensures Cancelling(s, k) {
      var g: nat :| g < |s'.flushers| && s'.flushers[g].toCancel == Some(k);
      assert s.flushers[g].toCancel == Some(k);
    }
  }

  ghost predicate SameContexts(s: State, s': State) {
    && s'.sh.conn == s.sh.conn && s'.sh.cancel == s.sh.cancel && s'.sh.sessionID == s.sh.sessionID
        && s'.sh.closed == s.sh.closed
    && s'.cancelled == s.cancelled && |s'.flushers| == |s.flushers|
    && (forall f :: 0 <= f < |s.flushers| ==> s'.flushers[f].toCancel == s.flushers[f].toCancel)
  }

  lemma ReaderSameContexts(s: State, st: Step, s': State)
    requires NextReader(s, st) == Some(s') && !st.EndSession?
    ensures SameContexts(s, s')
  {
    ReaderStops(s, st, s');
    ReaderFrame(s, st, s');
    hide NextReader;
  }

  lemma OtherSameContexts(s: State, st: Step, s': State)
    requires Next(s, st) == Some(s')
    requires !st.EndSession? && !st.CloseTransport? && !st.SwapConn? && !st.CancelContext?
    ensures SameContexts(s, s')
  {
    WhoSteps(s, st, s');
    hide Next;
    if OfReader(st) { hide NextCall, NextReader, NextReply, NextFlusher; ReaderSameContexts(s, st, s'); }
    else if OfCall(st) { hide NextFlusher, NextReader, NextReply; }
    else if OfReply(st) { hide NextFlusher, NextCall, NextReader; }
    else { hide NextCall, NextReader, NextReply; }
  }

  lemma SameContextsKeep(s: State, s': State)
    requires ContextInv(s) && SameContexts(s, s')
    ensures ContextInv(s')
  {
    forall k: nat ensures Cancelling(s', k) <==> Cancelling(s, k) {
      if Cancelling(s, k) {
        var f: nat :| f < |s.flushers| && s.flushers[f].toCancel == Some(k);
        assert s'.flushers[f].toCancel == Some(k);
      }
    }
  }

  /** A flusher that remains what it was for the service invariant. */
  ghost predicate SameDuties(s: State, s': State) {
    && s'.sh.conn == s.sh.conn && s'.sh.sessionID == s.sh.sessionID && s'.sh.closed == s.sh.closed
    && |s'.flushers| == |s.flushers|
    && (s.done ==> s'.done)
    && (forall f :: 0 <= f < |s.flushers| ==>
          s'.flushers[f].kind == s.flushers[f].kind && s'.flushers[f].finished == s.flushers[f].finished
          && s'.flushers[f].todo <= s.flushers[f].todo
          && (s.flushers[f].toCancel.None? ==> s'.flushers[f].toCancel.None?))
    && (s.sh.sessionID in s.readers && !s.readers[s.sh.sessionID].pc.Stopped? && s.sh.conn.Some? ==>
          s.sh.sessionID in s'.readers && !s'.readers[s.sh.sessionID].pc.Stopped?)
  }

  lemma SameDutiesKeepService(s: State, s': State)
    requires ServiceInv(s) && SameDuties(s, s')
    ensures ServiceInv(s')
  {
    if s.sh.conn.Some? && !(s.sh.sessionID in s'.readers && !s'.readers[s.sh.sessionID].pc.Stopped?) {
      var f: nat :| f < |s.flushers| && Starts(s.flushers[f], s.sh.sessionID);
      assert Starts(s'.flushers[f], s'.sh.sessionID);
    }
    if s.sh.closed && !s.done {
      var f: nat :| f < |s.flushers| && s.flushers[f].kind.Closing? && !s.flushers[f].finished;
      assert s'.flushers[f].kind.Closing?;
    }
  }

  lemma DetachKeepsService(s: State, st: Step, s': State)
    requires TableInv(s) && ServiceInv(s) && Next(s, st) == Some(s')
    requires Detaches(st)
    ensures ServiceInv(s')
  {
    DetachFrame(s, st, s');
    assert s.sh.closed ==> s.sh.conn.None?;
    hide Next, TableInv;
    var n := |s.flushers|;
    if s'.flushers == s.flushers {
      SameDutiesKeepService(s, s');
    } else {
      DetachShared(s, st, s');
    }
  }

  lemma FinishKeepsService(s: State, f: nat, s': State)
    requires CoreInv(s) && ServiceInv(s) && Next(s, FinishFlush(f)) == Some(s')
    ensures ServiceInv(s')
  {
    if s.sh.conn.Some? && !(s.sh.sessionID in s.readers && !s.readers[s.sh.sessionID].pc.Stopped?) {
      var g: nat :| g < |s.flushers| && Starts(s.flushers[g], s.sh.sessionID);
      assert g != f ==> Starts(s'.flushers[g], s'.sh.sessionID);
    }
    if s.sh.closed && !s'.done {
      var g: nat :| g < |s.flushers| && s.flushers[g].kind.Closing? && !s.flushers[g].finished;
      assert s'.flushers[g].kind.Closing? && !s'.flushers[g].finished;
    }
  }

  /** A reader only stops when its session is over or the transport is done. */
  lemma ReaderSameDuties(s: State, st: Step, s': State)
    requires TableInv(s) && NextReader(s, st) == Some(s') && !st.EndSession?
    ensures SameDuties(s, s')
  {
    ReaderStops(s, st, s');
    ReaderFrame(s, st, s');
    hide NextReader;
  }

  lemma OtherSameDuties(s: State, st: Step, s': State)
    requires TableInv(s) && Next(s, st) == Some(s')
    requires !st.EndSession? && !st.CloseTransport? && !st.SwapConn? && !st.FinishFlush?
    ensures SameDuties(s, s')
  {
    WhoSteps(s, st, s');
    hide Next;
    if OfReader(st) { hide TableInv, NextCall, NextReader, NextReply, NextFlusher; ReaderSameDuties(s, st, s'); }
    else if OfCall(st) { hide TableInv, NextFlusher, NextReader, NextReply; }
    else if OfReply(st) { hide TableInv, NextFlusher, NextCall, NextReader; }
    else { hide TableInv, NextCall, NextReader, NextReply; }
  }

  ghost predicate IsolationInv(s: State) {
    WireInv(s) && ContextInv(s) && ServiceInv(s)
  }

  lemma StepKeepsIsolation(s: State, st: Step, s': State)
    requires CoreInv(s) && IsolationInv(s) && Next(s, st) == Some(s') && Fits(s')
    ensures IsolationInv(s')
  {
    assert TableInv(s) && CallInv(s) && ConnInv(s);
    hide CoreInv, TableInv, CallInv, ConnInv, WireInv, ContextInv, ServiceInv, Next;
    StepKeepsWire(s, st, s');
    if Detaches(st) {
      DetachKeepsContext(s, st, s');
      DetachKeepsService(s, st, s');
    } else {
      if st.CancelContext? {
        CancelKeepsContext(s, st.f, s');
      } else {
        OtherSameContexts(s, st, s');
        SameContextsKeep(s, s');
      }
      if st.FinishFlush? {
        FinishKeepsService(s, st.f, s');
      } else {
        OtherSameDuties(s, st, s');
        SameDutiesKeepService(s, s');
      }
    }
  }

  lemma {:induction false} RunIsolation(tr: seq<State>, steps: seq<Step>, i: nat)
    requires Run(tr, steps) && i < |tr| && Fits(tr[i])
    ensures IsolationInv(tr[i])
  {
    if i == 0 {
    } else {
      Grows(tr[i - 1], steps[i - 1], tr[i]);
      RunIsolation(tr, steps, i - 1);
      RunInv(tr, steps, i - 1);
      StepKeepsIsolation(tr[i - 1], steps[i - 1], tr[i]);
    }
  }

  // ----- What this gives over whole runs -----

  /** At most one envelope per inbound request, only on the connection the request arrived on. */
  lemma RepliesStayHome(tr: seq<State>, steps: seq<Step>, i: nat)
    requires Run(tr, steps) && i < |tr| && Fits(tr[i])
    ensures var s := tr[i];
            && (forall k, m :: 0 <= k < m < |s.wire| && s.wire[k].ReplySent? && s.wire[m].ReplySent? ==>
                s.wire[k].req != s.wire[m].req)
            && (forall k :: 0 <= k < |s.wire| && s.wire[k].ReplySent? ==>
                  && s.wire[k].req < |s.requests|
                  && 1 <= s.requests[s.wire[k].req].session <= |s.conns|
                  && s.wire[k].conn == s.conns[s.requests[s.wire[k].req].session - 1])
  {
    RunIsolation(tr, steps, i);
  }

  /** Once a session has been opened: a context is ended, or about to be, exactly when its session is over. */
  lemma ContextsFollowSessions(tr: seq<State>, steps: seq<Step>, i: nat, k: nat)
    requires Run(tr, steps) && i < |tr| && Fits(tr[i])
    requires 1 <= tr[i].sh.sessionID && k <= tr[i].sh.sessionID
    ensures (k in tr[i].cancelled || Cancelling(tr[i], k)) <==> !(tr[i].sh.conn.Some? && k == tr[i].sh.sessionID)
  {
    RunInv(tr, steps, i);
    RunIsolation(tr, steps, i);
  }

  lemma StaleStepIsHarmless(s: State, st: Step, s': State)
    requires Inv(s) && NextReader(s, st) == Some(s') && st.sid != s.sh.sessionID
    requires At(s, st.sid).Delivering? ==> At(s, st.sid).res.Answer? && At(s, st.sid).res.session == st.sid
    ensures s'.sh == s.sh && s'.flushers == s.flushers && |s'.calls| == |s.calls|
    ensures forall c :: 0 <= c < |s.calls| && s.calls[c].session == s.sh.sessionID ==> s'.calls[c] == s.calls[c]
  {
    if st.DeliverReply? {
      var pc := At(s, st.sid);
      assert Holds(s, Carrier(st.sid), pc.ch) && Answers(pc.res, s.calls[pc.ch]);
      hide Inv;
    } else {
      hide Inv;
    }
  }

  /**
   The reader of an old session changes no shared field, starts no flush, ends no context and
   touches no call of the current session, not even while it ends or delivers a late response.
   */
  lemma StaleReaderIsHarmless(tr: seq<State>, steps: seq<Step>, i: nat)
    requires Run(tr, steps) && i < |steps| && Fits(tr[i])
    requires OfReader(steps[i]) && steps[i].sid != tr[i].sh.sessionID
    ensures tr[i + 1].sh == tr[i].sh && tr[i + 1].flushers == tr[i].flushers && tr[i + 1].cancelled == tr[i].cancelled
    ensures |tr[i + 1].calls| == |tr[i].calls|
    ensures forall c :: 0 <= c < |tr[i].calls| && tr[i].calls[c].session == tr[i].sh.sessionID ==>
        tr[i + 1].calls[c] == tr[i].calls[c]
  {
    assert Next(tr[i], steps[i]) == Some(tr[i + 1]);
    WhoSteps(tr[i], steps[i], tr[i + 1]);
    hide Next, NextCall, NextReader, NextReply, NextFlusher, Inv;
    RunInv(tr, steps, i);
    RunCarriers(tr, steps, i, steps[i].sid);
    ReaderFrame(tr[i], steps[i], tr[i + 1]);
    StaleStepIsHarmless(tr[i], steps[i], tr[i + 1]);
  }

  /** What a reader carries is a response it read itself. */
  lemma {:induction false} RunCarriers(tr: seq<State>, steps: seq<Step>, i: nat, sid: nat)
    requires Run(tr, steps) && i < |tr|
    ensures At(tr[i], sid).Delivering? ==> At(tr[i], sid).res.Answer? && At(tr[i], sid).res.session == sid
  {
    if i == 0 {
    } else {
      RunCarriers(tr, steps, i - 1, sid);
      CarrierStep(tr[i - 1], steps[i - 1], tr[i], sid);
    }
  }

  lemma CarrierStep(s: State, st: Step, s': State, sid: nat)
    requires Next(s, st) == Some(s')
    requires At(s, sid).Delivering? ==> At(s, sid).res.Answer? && At(s, sid).res.session == sid
    ensures At(s', sid).Delivering? ==> At(s', sid).res.Answer? && At(s', sid).res.session == sid
  {
    WhoSteps(s, st, s');
    if OfReader(st) {
      ReaderFrame(s, st, s');
      assert st.Route? && s'.readers[st.sid].pc.Delivering? ==>
          s'.readers[st.sid].pc.res.Answer? && s'.readers[st.sid].pc.res.session == st.sid;
    } else {
      OtherFrame(s, st, s');
    }
    hide Next, NextCall, NextReader, NextReply, NextFlusher;
  }
}
