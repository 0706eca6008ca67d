/** What each goroutine of WebSocketTransport gets done (internal/transport/websocket.go). */
module WebSocketProgress {
  import opened Wrappers
  import opened Transport
  import opened WebSocket
  import opened WebSocketProtocol

  /** The state after these steps in a row, if each is possible. */
  function Play(s: State, steps: seq<Step>): Option<State>
    decreases |steps|
  {
    if steps == [] then Some(s)
    else
      match Next(s, steps[0])
      case None => None
      case Some(s') => Play(s', steps[1..])
  }

  lemma PlayOne(s: State, st: Step, rest: seq<Step>, s': State)
    requires Next(s, st) == Some(s')
    ensures Play(s, [st] + rest) == Play(s', rest)
  {
    hide Next;
    assert ([st] + rest)[1..] == rest;
  }

  /** What looking a response up does, whichever call is the newest and whether the transport is done or not. */
  lemma RouteEffect(s: State, response: Response)
    requires s.reader == Routing(response)
    ensures response.id !in s.t.pending ==> Next(s, Route) == Some(s.(reader := Reading))
    ensures response.id in s.t.pending ==>
              Next(s, Route) ==
              Some(s.(reader := Delivering(s.t.pending[response.id], Responded(response)),
                      t := s.t.(pending := s.t.pending - {response.id})))
  {
    hide NextCall, NextTerminator;
  }

  lemma ReadEffect(s: State)
    requires s.reader == Reading
    ensures Next(s, ReadFrame(None)) == Some(s.(reader := Ending))
    ensures Next(s, ReadFrame(Some(Skipped))) == Some(s)
    ensures Next(s, ReadFrame(Some(Inbound))) == Some(s.(reader := Offering))
    ensures forall response ::
              Next(s, ReadFrame(Some(Reply(response)))) ==
              Some(s.(reader := Routing(response), received := s.received + {response}))
  {
    hide NextCall, NextTerminator;
  }

  lemma DeliverEffect(s: State, ch: nat, res: Outcome)
    requires s.reader == Delivering(ch, res) && ch < |s.calls| && s.calls[ch].buf.None?
    ensures Next(s, DeliverReply) ==
            Some(s.(reader := Reading,
                    calls := s.calls[ch := s.calls[ch].(buf := Some(res), sends := s.calls[ch].sends + 1)]))
  {
    hide NextCall, NextTerminator;
  }

  lemma StartEffect(s: State)
    ensures Next(s, EnterCall) == if s.done then None else Some(s.(entering := s.entering + 1))
    ensures Next(s, StartCall).Some? <==> s.entering > 0
    ensures s.entering > 0 ==>
              var id := (s.t.nextID + 1) % 0x1_0000_0000_0000_0000;
              Next(s, StartCall) ==
              Some(s.(entering := s.entering - 1, t := CallTable(id, s.t.pending[id := |s.calls|]),
                      calls := s.calls + [Call(id, Writing, None, 0)]))
  {
    hide NextReader, NextTerminator;
  }

  /** The write, the three ways out of the select, and removePending with the error the call then returns. */
  lemma CallEffect(s: State, c: nat)
    requires c < |s.calls|
    ensures var call := s.calls[c];
            && (call.phase.Writing? ==>
                  && Next(s, WriteCall(c, true)) == Some(SetPhase(s, c, Waiting))
                  && Next(s, WriteCall(c, false)) == Some(SetPhase(s, c, Removing(ErrWrite))))
            && (call.phase.Waiting? ==>
                  && Next(s, GiveUp(c)) == Some(SetPhase(s, c, Removing(ErrContext)))
                  && Next(s, SeeDone(c)) == (if s.done then Some(SetPhase(s, c, Removing(ErrClosed))) else None)
                  && (Next(s, Receive(c)).Some? <==> call.buf.Some?))
            && (call.phase.Waiting? && call.buf.Some? ==>
                  Next(s, Receive(c)) ==
                  Some(s.(calls := s.calls[c := call.(phase := Returned(call.buf.value), buf := None)])))
            && (call.phase.Removing? ==>
                  Next(s, RemoveEntry(c)) ==
                  Some(s.(calls := s.calls[c := call.(phase := Returned(Refused(call.phase.why)))],
                          t := s.t.(pending := s.t.pending - {call.id}))))
  {
    hide NextReader, NextTerminator;
  }

  /** A terminate detaches the whole table, answers every channel with ErrClosed and then closes `done`. */
  lemma TerminateEffect(s: State)
    ensures var detached :=
              s.(t := s.t.(pending := map[]), terms := s.terms + [Terminator(s.t.pending.Values, false)]);
            && Next(s, EnterClose) == (if s.done then None else Some(s.(closers := s.closers + 1)))
            && (s.closers > 0 ==> Next(s, TerminateByClose) == Some(detached.(closers := s.closers - 1)))
            && (s.reader == Ending ==> Next(s, TerminateByReader) == Some(detached.(reader := Stopped)))
    ensures forall f: nat :: f < |s.terms| && !s.terms[f].finished && s.terms[f].todo == {} ==>
              Next(s, FinishFlush(f)) == Some(s.(done := true, terms := s.terms[f := Terminator({}, true)]))
    ensures forall f: nat, ch: nat ::
              f < |s.terms| && ch in s.terms[f].todo && ch < |s.calls| && s.calls[ch].buf.None? ==>
                Next(s, FlushSend(f, ch)) ==
                Some(s.(calls := s.calls[ch := s.calls[ch].(buf := Some(Refused(ErrClosed)),
                    sends := s.calls[ch].sends + 1)],
                        terms := s.terms[f := s.terms[f].(todo := s.terms[f].todo - {ch})]))
  {
    hide NextCall;
  }

  /**
   A response reaches its call. In any state of any run, if a waiting call is in the table and the
   reader is reading, then the response with the call's id, whatever else is pending, takes it out of
   the table and makes it return exactly that response.
   */
  lemma AnswerArrives(tr: seq<State>, steps: seq<Step>, i: nat, c: nat, body: Body)
    requires Run(tr, steps) && i < |tr| && Fits(tr[i])
    requires c < |tr[i].calls| && tr[i].calls[c].phase.Waiting? && Holds(tr[i], Table, c) && tr[i].reader == Reading
    ensures var s, response := tr[i], Response(tr[i].calls[c].id, body);
            var end := Play(s, [ReadFrame(Some(Reply(response))), Route, DeliverReply, Receive(c)]);
            && end.Some? && |end.value.calls| == |s.calls|
            && end.value.calls[c].phase == Returned(Responded(response))
            && end.value.t == s.t.(pending := s.t.pending - {response.id}) && end.value.reader == Reading
  {
    RunInv(tr, steps, i);
    var s, response := tr[i], Response(tr[i].calls[c].id, body);
    assert s.calls[c].id == c + 1 && response.id in s.t.pending && s.t.pending[response.id] == c
        && s.calls[c].buf.None?;
    hide Run, Inv, NoneLost, ReaderInv, Next;
    ReadEffect(s);
    var s1 := s.(reader := Routing(response), received := s.received + {response});
    RouteEffect(s1, response);
    var s2 := s1.(reader := Delivering(c, Responded(response)), t := s.t.(pending := s.t.pending - {response.id}));
    DeliverEffect(s2, c, Responded(response));
    var s3 := Next(s2, DeliverReply).value;
    CallEffect(s3, c);
    var s4 := Next(s3, Receive(c)).value;
    PlayOne(s3, Receive(c), [], s4);
    PlayOne(s2, DeliverReply, [Receive(c)], s3);
    PlayOne(s1, Route, [DeliverReply, Receive(c)], s2);
    PlayOne(s, ReadFrame(Some(Reply(response))), [Route, DeliverReply, Receive(c)], s1);
    assert [Receive(c)] + [] == [Receive(c)] && [DeliverReply] + [Receive(c)] == [DeliverReply, Receive(c)];
    assert [Route] + [DeliverReply, Receive(c)] == [Route, DeliverReply, Receive(c)];
    assert [ReadFrame(Some(Reply(response)))] + [Route, DeliverReply, Receive(c)]
        == [ReadFrame(Some(Reply(response))), Route, DeliverReply, Receive(c)];
  }

  /** A waiting call whose channel a terminate has detached can be answered, and then returns ErrClosed. */
  lemma FailureArrives(tr: seq<State>, steps: seq<Step>, i: nat, f: nat, c: nat)
    requires Run(tr, steps) && i < |tr| && Fits(tr[i])
    requires f < |tr[i].terms| && c in tr[i].terms[f].todo && c < |tr[i].calls| && tr[i].calls[c].phase.Waiting?
    ensures var end := Play(tr[i], [FlushSend(f, c), Receive(c)]);
            end.Some? && c < |end.value.calls| && end.value.calls[c].phase == Returned(Refused(ErrClosed))
  {
    RunInv(tr, steps, i);
    var s := tr[i];
    assert Holds(s, Detached(f), c) && s.calls[c].buf.None?;
    hide Run, Inv, NoneLost, ReaderInv, Next;
    TerminateEffect(s);
    var s1 := Next(s, FlushSend(f, c)).value;
    CallEffect(s1, c);
    var s2 := Next(s1, Receive(c)).value;
    PlayOne(s1, Receive(c), [], s2);
    PlayOne(s, FlushSend(f, c), [Receive(c)], s1);
    assert [Receive(c)] + [] == [Receive(c)] && [FlushSend(f, c)] + [Receive(c)] == [FlushSend(f, c), Receive(c)];
  }
}
