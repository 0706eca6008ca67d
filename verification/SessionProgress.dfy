/**
 What each goroutine of JSONRPCTransport gets done (internal/transport/transport.go, reconnect.go):
 answers, failures and replies reach whom they are for, and every step has its stated effect.
 */
module SessionProgress {
  import opened Wrappers
  import opened Transport
  import opened SessionProtocol
  import opened SessionSafety

  /** The state after these steps in a row, if each is possible. */
  function Play(s: State, steps: seq<Step>): Option<State>
    decreases |steps|
  {
    if steps == [] then Some(s)
    else
      match Next(s, steps[0])
      case None => None
      case Some(s') => Play(s', steps[1..])
  }

  lemma PlayOne(s: State, st: Step, rest: seq<Step>, s': State)
    requires Next(s, st) == Some(s')
    ensures Play(s, [st] + rest) == Play(s', rest)
  {
    hide Next;
    assert ([st] + rest)[1..] == rest;
  }

  /** Playing possible steps extends a run. */
  lemma {:induction false} PlayExtends(tr: seq<State>, steps: seq<Step>, more: seq<Step>)
    requires Run(tr, steps) && Play(tr[|steps|], more).Some?
    ensures exists longer: seq<State> ::
              Run(tr + longer, steps + more) && (tr + longer)[|steps + more|] == Play(tr[|steps|], more).value
    decreases |more|
  {
    hide Next;
    if more == [] {
      assert tr + [] == tr && steps + more == steps;
    } else {
      var s' := Next(tr[|steps|], more[0]).value;
      assert Run(tr + [s'], steps + [more[0]]);
      PlayExtends(tr + [s'], steps + [more[0]], more[1..]);
      var longer: seq<State> :|
        Run(tr + [s'] + longer, steps + [more[0]] + more[1..])
        && (tr + [s'] + longer)[|steps + [more[0]] + more[1..]|] == Play(s', more[1..]).value;
      assert tr + [s'] + longer == tr + ([s'] + longer) && steps + [more[0]] + more[1..] == steps + more;
    }
  }

  // ----- The reader -----

  /** What looking a response up does: nothing in an old session, nothing to the table for an unknown id. */
  lemma RouteEffect(s: State, sid: nat, id: nat, body: Body)
    requires At(s, sid) == Routing(InReply(id, body))
    ensures Next(s, Route(sid)).Some?
    ensures var s' := Next(s, Route(sid)).value;
            && s'.calls == s.calls && s'.flushers == s.flushers
            && (s.sh.closed || s.sh.sessionID != sid ==> At(s', sid) == Stopped && s'.sh == s.sh)
            && (!s.sh.closed && s.sh.sessionID == sid && id !in s.sh.pending ==>
                At(s', sid) == Reading && s'.sh == s.sh)
            && (!s.sh.closed && s.sh.sessionID == sid && id in s.sh.pending ==>
                  && At(s', sid) == Delivering(s.sh.pending[id], Answer(sid, s.readers[sid].conn, id, body))
                  && s'.sh == s.sh.(pending := s.sh.pending - {id}))
  {
    hide NextCall, NextFlusher, NextReply;
  }

  /** A delivery puts what the reader carries into the channel. */
  lemma DeliverEffect(s: State, sid: nat)
    requires At(s, sid).Delivering? && At(s, sid).ch < |s.calls| && s.calls[At(s, sid).ch].buf.None?
    ensures Next(s, DeliverReply(sid)).Some?
    ensures var s', ch := Next(s, DeliverReply(sid)).value, At(s, sid).ch;
            && At(s', sid) == Reading && s'.sh == s.sh
            && s'.calls[ch].buf == Some(At(s, sid).res) && s'.calls[ch].phase == s.calls[ch].phase
            && |s'.calls| == |s.calls| && forall c :: 0 <= c < |s.calls| && c != ch ==> s'.calls[c] == s.calls[c]
  {
    hide NextCall, NextFlusher, NextReply;
  }

  /** What is read and checked before that. */
  lemma ReadEffect(s: State, sid: nat, frame: Frame)
    requires At(s, sid) == Reading
    ensures Next(s, ReadFrame(sid, Some(frame))) == Some(Goto(s, sid, Decoded(frame)))
    ensures Next(s, ReadFrame(sid, None)) == Some(Goto(s, sid, Ending))
  {
    hide NextCall, NextFlusher, NextReply;
  }

  lemma CheckEffect(s: State, sid: nat, frame: Frame)
    requires At(s, sid) == Decoded(frame)
    ensures Next(s, CheckSession(sid)) ==
            Some(Goto(s, sid, if s.sh.closed || s.sh.sessionID != sid then Stopped
                              else if frame.Malformed? then Ending
                              else Routing(frame)))
  {
    hide NextCall, NextFlusher, NextReply;
  }

  /** Requests and notifications of the current session go to their consumers. */
  lemma OfferEffect(s: State, sid: nat, frame: Frame)
    requires At(s, sid) == Routing(frame) && !s.sh.closed && s.sh.sessionID == sid && !frame.InReply?
    ensures Next(s, Route(sid)) == Some(Goto(s, sid, Offering(frame)))
    ensures var s' := Goto(s, sid, Offering(frame));
            match frame
            case InNote(note) => Next(s', Offer(sid)) == Some(Goto(s, sid, Reading).(notes := s.notes + [(sid, note)]))
            case InRequest(rid) =>
              Next(s', Offer(sid)) ==
              Some(Goto(s, sid, Reading)
                   .(requests := s.requests + [Inbound(sid, s.readers[sid].conn, rid, Unanswered)]))
            case _ => true
  {
    hide NextCall, NextFlusher, NextReply;
    assert Goto(Goto(s, sid, Offering(frame)), sid, Reading).readers == Goto(s, sid, Reading).readers;
  }

  /**
   What a reader that is alive can do next, in any state of any run: it never blocks on the table or a
   reply channel.
   */
  lemma ReaderIsNeverStuck(tr: seq<State>, steps: seq<Step>, i: nat, sid: nat)
    requires Run(tr, steps) && i < |tr| && Fits(tr[i]) && sid in tr[i].readers
    ensures var pc := At(tr[i], sid);
            && (pc.Reading? ==> forall input :: Next(tr[i], ReadFrame(sid, input)).Some?)
            && (pc.Decoded? ==> Next(tr[i], CheckSession(sid)).Some?)
            && (pc.Routing? ==> Next(tr[i], Route(sid)).Some?)
            && (pc.Delivering? ==> Next(tr[i], DeliverReply(sid)).Some?)
            && (pc.Ending? ==> Next(tr[i], EndSession(sid)).Some?)
  {
    RunInv(tr, steps, i);
    hide Run, NextCall, NextFlusher, NextReply;
    if At(tr[i], sid).Delivering? { assert Holds(tr[i], Carrier(sid), At(tr[i], sid).ch); }
    hide Inv;
  }

  // ----- A call -----

  /** StartCall, step by step outright. */
  lemma StartEffect(s: State)
    ensures Next(s, StartCall).Some? <==> !s.sh.closed && s.sh.conn.Some?
    ensures Next(s, StartCall).Some? ==>
              var s', id := Next(s, StartCall).value, (s.sh.nextID + 1) % 0x1_0000_0000_0000_0000;
              && s'.sh == s.sh.(nextID := id, pending := s.sh.pending[id := |s.calls|])
              && s'.calls == s.calls + [Call(id, s.sh.sessionID, s.sh.conn.value, Writing, None, 0)]
  {
    hide NextReader, NextFlusher, NextReply;
  }

  /** The write goes out on the connection the call registered with. */
  lemma WriteEffect(s: State, c: nat, ok: bool)
    requires c < |s.calls| && s.calls[c].phase.Writing?
    ensures Next(s, WriteCall(c, ok)) ==
            Some(s.(calls := s.calls[c := s.calls[c].(phase := if ok then Waiting else Removing(ErrWrite))],
                    wire := s.wire + [CallSent(s.calls[c].conn, c)]))
  {
    hide NextReader, NextFlusher, NextReply;
  }

  /** The three ways out of the select. */
  lemma SelectEffect(s: State, c: nat)
    requires c < |s.calls| && s.calls[c].phase.Waiting?
    ensures Next(s, GiveUp(c)) == Some(SetCall(s, c, s.calls[c].(phase := Removing(ErrContext))))
    ensures Next(s, SeeDone(c)) ==
            if s.done then Some(SetCall(s, c, s.calls[c].(phase := Removing(ErrClosed)))) else None
    ensures Next(s, Receive(c)).Some? <==> s.calls[c].buf.Some?
    ensures s.calls[c].buf.Some? ==>
              Next(s, Receive(c)) ==
                  Some(SetCall(s, c, s.calls[c].(phase := Returned(s.calls[c].buf.value), buf := None)))
  {
    hide NextReader, NextFlusher, NextReply;
  }

  /** removePending, and the error the call then returns. */
  lemma RemoveEffect(s: State, c: nat)
    requires c < |s.calls| && s.calls[c].phase.Removing?
    ensures Next(s, RemoveEntry(c)) ==
            Some(SetCall(s, c, s.calls[c].(phase := Returned(Failed(s.calls[c].phase.why))))
                 .(sh := s.sh.(pending := s.sh.pending - {s.calls[c].id})))
  {
    hide NextReader, NextFlusher, NextReply;
  }

  /** In every run a call returns exactly what its channel held, whenever it receives. */
  lemma ReturnsWhatItReceives(tr: seq<State>, steps: seq<Step>, i: nat, c: nat)
    requires Run(tr, steps) && i < |steps| && steps[i] == Receive(c)
    ensures c < |tr[i].calls| == |tr[i + 1].calls|
    ensures tr[i].calls[c].buf.Some? && tr[i + 1].calls[c].phase == Returned(tr[i].calls[c].buf.value)
    ensures tr[i + 1].calls[c].buf.None?
  {
    assert Next(tr[i], steps[i]) == Some(tr[i + 1]);
    hide Run, NextReader, NextFlusher, NextReply;
  }

  function Delivery(call: Call, body: Body, c: nat): seq<Step> {
    [ReadFrame(call.session, Some(InReply(call.id, body))), CheckSession(call.session), Route(call.session),
     DeliverReply(call.session), Receive(c)]
  }

  /**
   A response reaches its call. In any state of any run, if a waiting call is in the table and the
   reader of its session is reading, then the response with the call's id, whatever else is pending,
   takes it out of the table and makes it return exactly that response.
   */
  lemma AnswerArrives(tr: seq<State>, steps: seq<Step>, i: nat, c: nat, body: Body)
    requires Run(tr, steps) && i < |tr| && Fits(tr[i])
    requires c < |tr[i].calls| && tr[i].calls[c].phase.Waiting? && Holds(tr[i], Table, c)
    requires At(tr[i], tr[i].calls[c].session) == Reading
    ensures var s, call := tr[i], tr[i].calls[c];
            var end := Play(s, Delivery(call, body, c));
            && end.Some? && |end.value.calls| == |s.calls|
            && end.value.calls[c].phase == Returned(Answer(call.session, call.conn, call.id, body))
            && end.value.sh == s.sh.(pending := s.sh.pending - {call.id})
            && At(end.value, call.session) == Reading
  {
    RunInv(tr, steps, i);
    InTable(tr[i], c);
    hide Run, Inv, Next, Holds;
    DeliveryPlays(tr[i], c, body);
  }

  lemma DeliveryPlays(s: State, c: nat, body: Body)
    requires c < |s.calls| && s.calls[c].phase.Waiting? && s.calls[c].buf.None?
    requires !s.sh.closed && s.sh.sessionID == s.calls[c].session && s.calls[c].session in s.readers
    requires s.calls[c].id in s.sh.pending && s.sh.pending[s.calls[c].id] == c
    requires At(s, s.calls[c].session) == Reading && s.readers[s.calls[c].session].conn == s.calls[c].conn
    ensures var call := s.calls[c];
            var end := Play(s, Delivery(call, body, c));
            && end.Some? && |end.value.calls| == |s.calls|
            && end.value.calls[c].phase == Returned(Answer(call.session, call.conn, call.id, body))
            && end.value.sh == s.sh.(pending := s.sh.pending - {call.id})
            && At(end.value, call.session) == Reading
  {
    var call := s.calls[c];
    var s1, s2, s3 := Looked(s, c, body);
    hide Next;
    DeliverEffect(s3, call.session);
    var s4 := Next(s3, DeliverReply(call.session)).value;
    SelectEffect(s4, c);
    var s5 := Next(s4, Receive(c)).value;
    AfterReceive(s4, c, call.session);
    hide Goto, At;
    PlayFive(s, s1, s2, s3, s4, s5, Delivery(call, body, c));
  }

  /** The first three steps of a delivery: read, check, look up. */
  lemma Looked(s: State, c: nat, body: Body) returns (s1: State, s2: State, s3: State)
    requires c < |s.calls| && !s.sh.closed && s.sh.sessionID == s.calls[c].session && s.calls[c].session in s.readers
    requires s.calls[c].id in s.sh.pending && s.sh.pending[s.calls[c].id] == c
    requires At(s, s.calls[c].session) == Reading && s.readers[s.calls[c].session].conn == s.calls[c].conn
    ensures var call := s.calls[c];
            && Next(s, ReadFrame(call.session, Some(InReply(call.id, body)))) == Some(s1)
            && Next(s1, CheckSession(call.session)) == Some(s2) && Next(s2, Route(call.session)) == Some(s3)
            && s3.calls == s.calls && s3.sh == s.sh.(pending := s.sh.pending - {call.id})
            && At(s3, call.session) == Delivering(c, Answer(call.session, call.conn, call.id, body))
  {
    var sid, frame := s.calls[c].session, InReply(s.calls[c].id, body);
    hide Next;
    s1, s2 := Goto(s, sid, Decoded(frame)), Goto(s, sid, Routing(frame));
    ReadEffect(s, sid, frame);
    CheckEffect(s1, sid, frame);
    assert s1.readers[sid := s1.readers[sid].(pc := Routing(frame))] == s2.readers;
    RouteEffect(s2, sid, s.calls[c].id, body);
    s3 := Next(s2, Route(sid)).value;
  }

  lemma AfterReceive(s: State, c: nat, sid: nat)
    requires c < |s.calls| && s.calls[c].phase.Waiting? && s.calls[c].buf.Some?
    ensures var s' := Next(s, Receive(c)).value;
            s'.sh == s.sh && At(s', sid) == At(s, sid) && |s'.calls| == |s.calls|
            && s'.calls[c].phase == Returned(s.calls[c].buf.value)
  {
    SelectEffect(s, c);
    hide Next;
  }

  lemma InTable(s: State, c: nat)
    requires Inv(s) && c < |s.calls| && Holds(s, Table, c) && s.calls[c].session in s.readers
    ensures !s.sh.closed && s.sh.sessionID == s.calls[c].session
    ensures s.calls[c].id in s.sh.pending && s.sh.pending[s.calls[c].id] == c
    ensures s.calls[c].buf.None? && s.readers[s.calls[c].session].conn == s.calls[c].conn
  {
  }

  lemma PlayFive(s: State, s1: State, s2: State, s3: State, s4: State, s5: State, sts: seq<Step>)
    requires |sts| == 5 && Next(s, sts[0]) == Some(s1) && Next(s1, sts[1]) == Some(s2) && Next(s2, sts[2]) == Some(s3)
    requires Next(s3, sts[3]) == Some(s4) && Next(s4, sts[4]) == Some(s5)
    ensures Play(s, sts) == Some(s5)
  {
    hide Next;
    assert sts == [sts[0]] + ([sts[1]] + ([sts[2]] + ([sts[3]] + ([sts[4]] + []))));
    PlayOne(s, sts[0], [sts[1]] + ([sts[2]] + ([sts[3]] + ([sts[4]] + []))), s1);
    PlayOne(s1, sts[1], [sts[2]] + ([sts[3]] + ([sts[4]] + [])), s2);
    PlayOne(s2, sts[2], [sts[3]] + ([sts[4]] + []), s3);
    PlayOne(s3, sts[3], [sts[4]] + [], s4);
    PlayOne(s4, sts[4], [], s5);
  }

  // ----- Ends of sessions -----

  /** What a detached table is flushed with. */
  function ErrorOf(kind: FlushBy): Failure {
    if kind.Closing? then ErrClosed else ErrDisconnected
  }

  /** Close, Reconnect and the end of the current session each detach the whole table, with their own error. */
  lemma CloseEffect(s: State)
    ensures Next(s, CloseTransport).Some? <==> !s.sh.closed
    ensures !s.sh.closed ==>
              Next(s, CloseTransport) ==
              Some(s.(sh := s.sh.(closed := true, conn := None, pending := map[]),
                      flushers := s.flushers + [Flusher(Closing, s.sh.cancel, s.sh.pending.Values, ErrClosed, false)]))
  {
    hide NextCall, NextReader, NextReply;
  }

  lemma SwapEffect(s: State, conn: Conn)
    ensures Next(s, SwapConn(conn)).Some? <==> s.hasOpener && !s.sh.closed
    ensures s.hasOpener && !s.sh.closed ==>
              var sid := (s.sh.sessionID + 1) % 0x1_0000_0000_0000_0000;
              var f := Flusher(Swapping(sid, conn), s.sh.cancel, s.sh.pending.Values, ErrDisconnected, false);
              Next(s, SwapConn(conn)) ==
              Some(s.(sh := Shared(Some(conn), false, sid, 0, map[], Some(sid)),
                      conns := s.conns + [conn], flushers := s.flushers + [f]))
  {
    hide NextCall, NextReader, NextReply;
  }

  lemma EndEffect(s: State, sid: nat)
    requires At(s, sid) == Ending
    ensures Next(s, EndSession(sid)).Some?
    ensures !s.sh.closed && s.sh.sessionID == sid ==>
              Next(s, EndSession(sid)) ==
              Some(Goto(s, sid, Stopped).(
                     sh := s.sh.(conn := None, pending := map[], cancel := None),
                     flushers := s.flushers + [Flusher(AfterEnd, s.sh.cancel, s.sh.pending.Values, ErrDisconnected,
                         false)]))
    ensures s.sh.closed || s.sh.sessionID != sid ==> Next(s, EndSession(sid)) == Some(Goto(s, sid, Stopped))
  {
    hide NextCall, NextFlusher, NextReply;
  }

  /** A flush first ends the context, then answers every channel, then does what its operation still has to do. */
  lemma FlushEffect(s: State, f: nat)
    requires f < |s.flushers|
    ensures var fl := s.flushers[f];
            && (fl.toCancel.Some? ==>
                  Next(s, CancelContext(f)) ==
                  Some(SetFlusher(s, f, fl.(toCancel := None)).(cancelled := s.cancelled + {fl.toCancel.value})))
            && (forall ch :: ch in fl.todo && fl.toCancel.None? && ch < |s.calls| && s.calls[ch].buf.None? ==>
                  Next(s, FlushSend(f, ch)) ==
                  Some(SetFlusher(s, f, fl.(todo := fl.todo - {ch}))
                       .(calls := s.calls[ch := s.calls[ch].(buf := Some(Failed(fl.err)),
                           sends := s.calls[ch].sends + 1)])))
            && (fl.toCancel.None? && fl.todo == {} && !fl.finished ==>
                  Next(s, FinishFlush(f)) ==
                  var s' := SetFlusher(s, f, fl.(finished := true));
                  match fl.kind
                  case Closing => Some(s'.(done := true))
                  case Swapping(sid, conn) => Some(s'.(readers := s.readers[sid := Reader(conn, Reading)]))
                  case AfterEnd => Some(s'))
  {
    hide NextCall, NextReader, NextReply;
  }

  lemma FlusherStepErrors(s: State, st: Step, s': State)
    requires NextFlusher(s, st) == Some(s')
    requires forall f :: 0 <= f < |s.flushers| ==> s.flushers[f].err == ErrorOf(s.flushers[f].kind)
    ensures forall f :: 0 <= f < |s'.flushers| ==> s'.flushers[f].err == ErrorOf(s'.flushers[f].kind)
  {
  }

  lemma StepErrors(s: State, st: Step, s': State)
    requires Next(s, st) == Some(s')
    requires forall f :: 0 <= f < |s.flushers| ==> s.flushers[f].err == ErrorOf(s.flushers[f].kind)
    ensures forall f :: 0 <= f < |s'.flushers| ==> s'.flushers[f].err == ErrorOf(s'.flushers[f].kind)
  {
    WhoSteps(s, st, s');
    hide Next;
    if OfCall(st) { hide NextFlusher, NextReader, NextReply; }
    else if OfReader(st) {
      ReaderFrame(s, st, s');
      hide NextFlusher, NextCall, NextReply;
      if !st.EndSession? { hide NextReader; }
    }
    else if OfReply(st) { hide NextFlusher, NextCall, NextReader; }
    else {
      hide NextFlusher, NextCall, NextReader, NextReply;
      FlusherStepErrors(s, st, s');
    }
  }

  /** Over every run: Close fails calls with ErrClosed, Reconnect and a broken session with ErrDisconnected. */
  lemma {:induction false} ErrorsFitTheirCause(tr: seq<State>, steps: seq<Step>, i: nat)
    requires Run(tr, steps) && i < |tr|
    ensures forall f :: 0 <= f < |tr[i].flushers| ==> tr[i].flushers[f].err == ErrorOf(tr[i].flushers[f].kind)
  {
    if i == 0 {
    } else {
      ErrorsFitTheirCause(tr, steps, i - 1);
      assert Next(tr[i - 1], steps[i - 1]) == Some(tr[i]);
      hide Run, Next;
      StepErrors(tr[i - 1], steps[i - 1], tr[i]);
    }
  }

  function Failing(s: State, f: nat, c: nat): seq<Step>
    requires f < |s.flushers|
  {
    (if s.flushers[f].toCancel.Some? then [CancelContext(f)] else []) + [FlushSend(f, c), Receive(c)]
  }

  /** A waiting call whose channel is being flushed can be answered, and then returns the error that fits the cause. */
  lemma FailureArrives(tr: seq<State>, steps: seq<Step>, i: nat, f: nat, c: nat)
    requires Run(tr, steps) && i < |tr| && Fits(tr[i])
    requires f < |tr[i].flushers| && c in tr[i].flushers[f].todo && c < |tr[i].calls| && tr[i].calls[c].phase.Waiting?
    ensures var end := Play(tr[i], Failing(tr[i], f, c));
            && end.Some? && c < |end.value.calls|
            && end.value.calls[c].phase == Returned(Failed(ErrorOf(tr[i].flushers[f].kind)))
  {
    RunInv(tr, steps, i);
    ErrorsFitTheirCause(tr, steps, i);
    var s, fl := tr[i], tr[i].flushers[f];
    assert Holds(s, Detached(f), c) && s.calls[c].buf.None?;
    hide Run, Inv, Next, Holds;
    FlushEffect(s, f);
    var s1 := if fl.toCancel.Some? then Next(s, CancelContext(f)).value else s;
    FlushEffect(s1, f);
    var s2 := Next(s1, FlushSend(f, c)).value;
    SelectEffect(s2, c);
    var s3 := Next(s2, Receive(c)).value;
    PlayOne(s2, Receive(c), [], s3);
    PlayOne(s1, FlushSend(f, c), [Receive(c)], s2);
    assert [Receive(c)] + [] == [Receive(c)] && [FlushSend(f, c)] + [Receive(c)] == [FlushSend(f, c), Receive(c)];
    if fl.toCancel.Some? {
      PlayOne(s, CancelContext(f), [FlushSend(f, c), Receive(c)], s1);
    } else {
      assert Failing(s, f, c) == [FlushSend(f, c), Receive(c)];
    }
  }

  // ----- Replies -----

  /** What `send` does for a claimed request: the write goes to the connection of its own, current session. */
  lemma ReplyEffect(s: State, r: nat)
    requires r < |s.requests|
    ensures var req := s.requests[r];
            && (req.stage.Unanswered? ==> Next(s, ClaimReply(r)) == Some(SetRequest(s, r, Claimed)))
            && (req.stage.Claimed? ==> Next(s, AbandonReply(r)) == Some(SetRequest(s, r, Settled)))
            && (req.stage.Claimed? ==>
                  Next(s, LookupReply(r)) ==
                  Some(SetRequest(s, r, if !s.sh.closed && s.sh.sessionID == req.session && s.sh.conn.Some?
                                        then Sending(s.sh.conn.value) else Settled)))
            && (req.stage.Sending? ==>
                  Next(s, WriteReply(r)) ==
                  Some(SetRequest(s, r, Settled).(wire := s.wire + [ReplySent(req.stage.target, r)])))
  {
    hide NextCall, NextReader, NextFlusher;
  }

  /**
   A reply reaches the wire. In any state of any run, an unanswered request of the current, connected
   session can be replied to whatever calls are pending, and the envelope goes to the connection the
   request arrived on.
   */
  lemma ReplyReachesWire(tr: seq<State>, steps: seq<Step>, i: nat, r: nat)
    requires Run(tr, steps) && i < |tr| && Fits(tr[i])
    requires r < |tr[i].requests| && tr[i].requests[r].stage.Unanswered?
    requires !tr[i].sh.closed && tr[i].sh.conn.Some? && tr[i].requests[r].session == tr[i].sh.sessionID
    ensures var s := tr[i];
            && 1 <= s.sh.sessionID <= |s.conns|
            && Play(s, [ClaimReply(r), LookupReply(r), WriteReply(r)]) ==
               Some(SetRequest(s, r, Settled).(wire := s.wire + [ReplySent(s.conns[s.sh.sessionID - 1], r)]))
  {
    RunInv(tr, steps, i);
    var s := tr[i];
    assert s.sh.sessionID == |s.conns| && s.sh.conn.value == s.conns[|s.conns| - 1];
    hide Run, Inv, Next;
    var s1, s2 := SetRequest(s, r, Claimed), SetRequest(s, r, Sending(s.sh.conn.value));
    ReplyEffect(s, r);
    ReplyEffect(s1, r);
    assert SetRequest(s1, r, Sending(s.sh.conn.value)) == s2;
    ReplyEffect(s2, r);
    var s3 := Next(s2, WriteReply(r)).value;
    assert s3 == SetRequest(s, r, Settled).(wire := s.wire + [ReplySent(s.sh.conn.value, r)]);
    PlayOne(s2, WriteReply(r), [], s3);
    PlayOne(s1, LookupReply(r), [WriteReply(r)], s2);
    PlayOne(s, ClaimReply(r), [LookupReply(r), WriteReply(r)], s1);
    assert [WriteReply(r)] + [] == [WriteReply(r)]
        && [LookupReply(r)] + [WriteReply(r)] == [LookupReply(r), WriteReply(r)];
    assert [ClaimReply(r)] + [LookupReply(r), WriteReply(r)] == [ClaimReply(r), LookupReply(r), WriteReply(r)];
  }
}
