/**
 WebSocketTransport as a transition system (internal/transport/websocket.go): one connection,
 ids that never restart, and a terminate that may run several times and concurrently with
 calls that passed their `done` check before it closed.

 Call `c` owns reply channel `c`. `received` is the history of decoded responses.
 */
module WebSocketProtocol {
  import opened Wrappers
  import opened Transport
  import opened WebSocket

  datatype Response = Response(id: nat, body: Body)

  datatype Outcome = Responded(response: Response) | Refused(why: Failure)

  datatype Phase = Writing | Waiting | Removing(why: Failure) | Returned(res: Outcome)

  datatype Call = Call(id: nat, phase: Phase, buf: Option<Outcome>, sends: nat)

  /** Skipped stands for every frame the read loop ignores. */
  datatype Frame = Skipped | Inbound | Reply(response: Response)

  datatype Reader =
      Reading | Routing(response: Response) | Delivering(ch: nat, res: Outcome) | Offering | Ending | Stopped

  datatype Terminator = Terminator(todo: set<nat>, finished: bool)

  datatype State = State(
    t: CallTable<nat>,
    done: bool,
    entering: nat,
    closers: nat,
    calls: seq<Call>,
    reader: Reader,
    terms: seq<Terminator>,
    received: set<Response>)

  datatype Step =
    | EnterCall
    | StartCall
    | WriteCall(c: nat, ok: bool)
    | GiveUp(c: nat)
    | SeeDone(c: nat)
    | Receive(c: nat)
    | RemoveEntry(c: nat)
    | ReadFrame(input: Option<Frame>)
    | Route
    | DeliverReply
    | DropReply
    | Offer
    | AbandonOffer
    | EnterClose
    | TerminateByClose
    | TerminateByReader
    | FlushSend(f: nat, ch: nat)
    | FlushDefault(f: nat, ch: nat)
    | FinishFlush(f: nat)

  const START := State(CallTable(0, map[]), false, 0, 0, [], Reading, [], {})

  predicate OfCall(st: Step) {
    st.EnterCall? || st.StartCall? || st.WriteCall? || st.GiveUp? || st.SeeDone? || st.Receive? || st.RemoveEntry?
  }

  predicate OfReader(st: Step) {
    st.ReadFrame? || st.Route? || st.DeliverReply? || st.DropReply? || st.Offer? || st.AbandonOffer?
        || st.TerminateByReader?
  }

  function Next(s: State, st: Step): Option<State> {
    if OfCall(st) then NextCall(s, st) else if OfReader(st) then NextReader(s, st) else NextTerminator(s, st)
  }

  function NextCall(s: State, st: Step): Option<State> {
    match st
    case EnterCall => if s.done then None else Some(s.(entering := s.entering + 1))
    case StartCall => StartCallStep(s)
    case WriteCall(c, ok) =>
      if c < |s.calls| && s.calls[c].phase.Writing? then
        Some(SetPhase(s, c, if ok then Waiting else Removing(ErrWrite)))
      else None
    case GiveUp(c) => LeaveSelect(s, c, ErrContext)
    case SeeDone(c) => if s.done then LeaveSelect(s, c, ErrClosed) else None
    case Receive(c) =>
      if c < |s.calls| && s.calls[c].phase.Waiting? && s.calls[c].buf.Some? then
        Some(s.(calls := s.calls[c := s.calls[c].(phase := Returned(s.calls[c].buf.value), buf := None)]))
      else None
    case RemoveEntry(c) =>
      if c < |s.calls| && s.calls[c].phase.Removing? then
        Some(SetPhase(s, c, Returned(Refused(s.calls[c].phase.why))).(t := Drop(s.t, s.calls[c].id)))
      else None
    case _ => None
  }

  function NextReader(s: State, st: Step): Option<State> {
    match st
    case ReadFrame(input) => ReadFrameStep(s, input)
    case Route => RouteStep(s)
    case DeliverReply =>
      if !s.reader.Delivering? then None
      else
        var sent := Send(s, s.reader.ch, s.reader.res);
        if sent.None? then None else Some(sent.value.(reader := Reading))
    case DropReply => if s.reader.Delivering? && s.done then Some(s.(reader := Reading)) else None
    case Offer => if s.reader.Offering? then Some(s.(reader := Reading)) else None
    case AbandonOffer => if s.reader.Offering? && s.done then Some(s.(reader := Stopped)) else None
    case TerminateByReader => if s.reader.Ending? then Some(Detach(s).(reader := Stopped)) else None
    case _ => None
  }

  function NextTerminator(s: State, st: Step): Option<State> {
    match st
    case EnterClose => if s.done then None else Some(s.(closers := s.closers + 1))
    case TerminateByClose => if s.closers == 0 then None else Some(Detach(s).(closers := s.closers - 1))
    case FlushSend(f, ch) =>
      if f < |s.terms| && ch in s.terms[f].todo then
        var sent := Send(s, ch, Refused(ErrClosed));
        if sent.None? then None else Some(LetGo(sent.value, f, ch))
      else None
    case FlushDefault(f, ch) =>
      if f < |s.terms| && ch in s.terms[f].todo && Send(s, ch, Refused(ErrClosed)).None? then Some(LetGo(s, f, ch))
          else None
    case FinishFlush(f) =>
      if f < |s.terms| && !s.terms[f].finished && s.terms[f].todo == {} then
        Some(s.(done := true, terms := s.terms[f := Terminator({}, true)]))
      else None
    case _ => None
  }

  function SetPhase(s: State, c: nat, phase: Phase): State
    requires c < |s.calls|
  {
    s.(calls := s.calls[c := s.calls[c].(phase := phase)])
  }

  function LeaveSelect(s: State, c: nat, why: Failure): Option<State> {
    if c < |s.calls| && s.calls[c].phase.Waiting? then Some(SetPhase(s, c, Removing(why))) else None
  }

  function StartCallStep(s: State): Option<State> {
    if s.entering == 0 then None
    else
      var t := Enroll(s.t, |s.calls|);
      Some(s.(entering := s.entering - 1, t := t, calls := s.calls + [Call(t.nextID, Writing, None, 0)]))
  }

  function Send(s: State, c: nat, v: Outcome): Option<State> {
    if c < |s.calls| && s.calls[c].buf.None? then
      Some(s.(calls := s.calls[c := s.calls[c].(buf := Some(v), sends := s.calls[c].sends + 1)]))
    else None
  }

  function ReadFrameStep(s: State, input: Option<Frame>): Option<State> {
    if !s.reader.Reading? then None
    else
      match input
      case None => Some(s.(reader := Ending))
      case Some(Skipped) => Some(s)
      case Some(Inbound) => Some(s.(reader := Offering))
      case Some(Reply(response)) => Some(s.(reader := Routing(response), received := s.received + {response}))
  }

  function RouteStep(s: State): Option<State> {
    if !s.reader.Routing? then None
    else
      var response := s.reader.response;
      match Find(s.t, response.id)
      case None => Some(s.(reader := Reading))
      case Some(ch) => Some(s.(reader := Delivering(ch, Responded(response)), t := Drop(s.t, response.id)))
  }

  /** The critical section of terminate. */
  function Detach(s: State): State {
    s.(t := s.t.(pending := map[]), terms := s.terms + [Terminator(s.t.pending.Values, false)])
  }

  function LetGo(s: State, f: nat, ch: nat): State
    requires f < |s.terms|
  {
    s.(terms := s.terms[f := s.terms[f].(todo := s.terms[f].todo - {ch})])
  }

  ghost predicate Run(tr: seq<State>, steps: seq<Step>) {
    && |tr| == |steps| + 1
    && tr[0] == START
    && forall i :: 0 <= i < |steps| ==> Next(tr[i], steps[i]) == Some(tr[i + 1])
  }

  /** The 64-bit id counter has not wrapped. */
  predicate Fits(s: State) { |s.calls| < WORD }

  // ----- Invariants -----

  /** Ids number the calls, so an id stands for one call for ever. */
  ghost predicate TableInv(s: State) {
    && s.t.nextID == |s.calls|
    && (forall c :: 0 <= c < |s.calls| ==> s.calls[c].id == c + 1)
    && (forall id :: id in s.t.pending ==> 1 <= id <= |s.calls| && s.t.pending[id] == id - 1)
  }

  datatype Holder = Table | Carrier | Detached(f: nat)

  ghost predicate Holds(s: State, h: Holder, c: nat) {
    match h
    case Table => c + 1 in s.t.pending
    case Carrier => s.reader.Delivering? && s.reader.ch == c
    case Detached(f) => f < |s.terms| && c in s.terms[f].todo
  }

  ghost predicate LinearInv(s: State) {
    && (forall h, c: nat :: Holds(s, h, c) ==> c < |s.calls| && s.calls[c].sends == 0)
    && (forall h, k, c: nat :: Holds(s, h, c) && Holds(s, k, c) ==> h == k)
    && (forall c :: 0 <= c < |s.calls| ==> s.calls[c].sends <= 1 && (s.calls[c].sends == 0 ==> s.calls[c].buf.None?))
  }

  predicate Genuine(s: State, res: Outcome, id: nat) {
    res.Responded? ==> res.response.id == id && res.response in s.received
  }

  ghost predicate AnswerInv(s: State) {
    && (s.reader.Routing? ==> s.reader.response in s.received)
    && (s.reader.Delivering? ==> Genuine(s, s.reader.res, s.reader.ch + 1))
    && (forall c :: 0 <= c < |s.calls| && s.calls[c].buf.Some? ==> Genuine(s, s.calls[c].buf.value, c + 1))
    && (forall c :: 0 <= c < |s.calls| && s.calls[c].phase.Returned? ==> Genuine(s, s.calls[c].phase.res, c + 1))
  }

  predicate Waits(call: Call) {
    call.phase.Writing? || call.phase.Waiting?
  }

  ghost predicate Reachable(s: State, c: nat) {
    s.done || (c < |s.calls| && s.calls[c].buf.Some?) || exists h :: Holds(s, h, c)
  }

  ghost predicate Terminating(s: State) {
    exists f: nat :: f < |s.terms| && !s.terms[f].finished
  }

  ghost predicate NoneLost(s: State) {
    forall c :: 0 <= c < |s.calls| && Waits(s.calls[c]) ==> Reachable(s, c)
  }

  /** The reader only stops when the transport is done or about to be. */
  ghost predicate ReaderInv(s: State) {
    && (s.reader.Stopped? ==> s.done || Terminating(s))
    && (forall f :: 0 <= f < |s.terms| && s.terms[f].finished ==> s.terms[f].todo == {})
  }

  lemma StepKeepsReader(s: State, st: Step, s': State)
    requires ReaderInv(s) && Next(s, st) == Some(s')
    ensures ReaderInv(s')
  {
    if st.TerminateByReader? { assert !s'.terms[|s.terms|].finished; }
    if s.reader.Stopped? && !s'.done {
      var f: nat :| f < |s.terms| && !s.terms[f].finished;
      assert !s'.terms[f].finished;
    }
  }

  ghost predicate Inv(s: State) {
    TableInv(s) && LinearInv(s) && AnswerInv(s)
  }

  lemma Grows(s: State, st: Step, s': State)
    requires Next(s, st) == Some(s')
    ensures |s.calls| <= |s'.calls|
  {
    if OfCall(st) { hide NextReader, NextTerminator; }
    else if OfReader(st) { hide NextCall, NextTerminator; }
    else { hide NextCall, NextReader; }
  }

  lemma StepKeepsTable(s: State, st: Step, s': State)
    requires TableInv(s) && Next(s, st) == Some(s') && Fits(s')
    ensures TableInv(s')
  {
    if OfCall(st) { hide NextReader, NextTerminator; }
    else if OfReader(st) { hide NextCall, NextTerminator; }
    else { hide NextCall, NextReader; }
  }

  lemma CallKeepsAnswers(s: State, st: Step, s': State)
    requires TableInv(s) && AnswerInv(s) && NextCall(s, st) == Some(s')
    ensures AnswerInv(s')
  {
    assert s'.received == s.received && s'.reader == s.reader;
    forall c | 0 <= c < |s'.calls|
      ensures s'.calls[c].buf.Some? ==> Genuine(s, s'.calls[c].buf.value, c + 1)
      ensures s'.calls[c].phase.Returned? ==> Genuine(s, s'.calls[c].phase.res, c + 1)
    {
    }
  }

  lemma ReaderKeepsAnswers(s: State, st: Step, s': State)
    requires TableInv(s) && AnswerInv(s) && NextReader(s, st) == Some(s')
    ensures AnswerInv(s')
  {
  }

  lemma TerminatorKeepsAnswers(s: State, st: Step, s': State)
    requires TableInv(s) && AnswerInv(s) && NextTerminator(s, st) == Some(s')
    ensures AnswerInv(s')
  {
  }

  lemma StepKeepsAnswers(s: State, st: Step, s': State)
    requires TableInv(s) && AnswerInv(s) && Next(s, st) == Some(s')
    ensures AnswerInv(s')
  {
    hide TableInv, AnswerInv, NextCall, NextReader, NextTerminator;
    if OfCall(st) { CallKeepsAnswers(s, st, s'); }
    else if OfReader(st) { ReaderKeepsAnswers(s, st, s'); }
    else { TerminatorKeepsAnswers(s, st, s'); }
  }

  /** Where a holder of `s'` got its channel from: a lookup and a terminate take from the table. */
  function Source(s: State, st: Step, h: Holder): Holder {
    if (st.Route? && h == Carrier)
        || ((st.TerminateByClose? || st.TerminateByReader?) && h == Detached(|s.terms|)) then Table
    else h
  }

  lemma HoldersComeFrom(s: State, st: Step, s': State)
    requires TableInv(s) && Next(s, st) == Some(s') && (st.StartCall? ==> TableInv(s'))
    ensures forall h, c: nat :: Holds(s', h, c) ==>
              if st.StartCall? && c == |s.calls| then h == Table || Holds(s, h, c) else Holds(s, Source(s, st, h), c)
  {
    if OfCall(st) { hide NextReader, NextTerminator; }
    else if OfReader(st) { hide NextCall, NextTerminator; }
    else { hide NextCall, NextReader; }
    forall h, c: nat | Holds(s', h, c)
      ensures if st.StartCall? && c == |s.calls| then h == Table || Holds(s, h, c) else Holds(s, Source(s, st, h), c)
    {
      if (st.TerminateByClose? || st.TerminateByReader?) && h == Detached(|s.terms|) {
        var id :| id in s.t.pending && s.t.pending[id] == c;
      }
    }
  }

  /** Two holders never come from the same one: what is taken from the table is not left there. */
  lemma SourcesDiffer(s: State, st: Step, s': State)
    requires TableInv(s) && Next(s, st) == Some(s')
    ensures forall h, k, c: nat :: Holds(s', h, c) && Holds(s', k, c) && Source(s, st, h) == Source(s, st, k) ==> h == k
  {
    if OfCall(st) { hide NextReader, NextTerminator; }
    else if OfReader(st) { hide NextCall, NextTerminator; }
    else { hide NextCall, NextReader; }
  }

  /** A send finds the channel empty and leaves it without a holder. */
  lemma SenderLetsGo(s: State, st: Step, s': State)
    requires LinearInv(s) && Next(s, st) == Some(s') && (st.DeliverReply? || st.FlushSend?)
    ensures var c := if st.DeliverReply? then s.reader.ch else st.ch;
            c < |s.calls| && s.calls[c].sends == 0 && forall h :: !Holds(s', h, c)
  {
    var c := if st.DeliverReply? then s.reader.ch else st.ch;
    var k := if st.DeliverReply? then Carrier else Detached(st.f);
    assert Holds(s, k, c);
    forall h ensures !Holds(s', h, c) {
      if Holds(s', h, c) { assert Holds(s, h, c); }
    }
  }

  lemma StepKeepsSends(s: State, st: Step, s': State)
    requires LinearInv(s) && Next(s, st) == Some(s')
    ensures forall c :: 0 <= c < |s'.calls| ==>
        s'.calls[c].sends <= 1 && (s'.calls[c].sends == 0 ==> s'.calls[c].buf.None?)
    ensures forall c :: 0 <= c < |s.calls| && s'.calls[c].sends != s.calls[c].sends ==> forall h :: !Holds(s', h, c)
    ensures |s.calls| <= |s'.calls|
        && (|s'.calls| > |s.calls| ==> st.StartCall? && s'.calls[|s.calls|].sends == 0 && |s'.calls| == |s.calls| + 1)
  {
    if st.DeliverReply? || st.FlushSend? { SenderLetsGo(s, st, s'); }
  }

  lemma StepKeepsLinear(s: State, st: Step, s': State)
    requires TableInv(s) && LinearInv(s) && Next(s, st) == Some(s') && Fits(s')
    ensures LinearInv(s')
  {
    StepKeepsTable(s, st, s');
    HoldersComeFrom(s, st, s');
    SourcesDiffer(s, st, s');
    StepKeepsSends(s, st, s');
    hide Next, TableInv;
    forall h, c: nat | Holds(s', h, c) ensures c < |s'.calls| && s'.calls[c].sends == 0 {
      if !(st.StartCall? && c == |s.calls|) { assert Holds(s, Source(s, st, h), c); }
    }
    forall h, k, c: nat | Holds(s', h, c) && Holds(s', k, c) ensures h == k {
      if st.StartCall? && c == |s.calls| {
        assert !Holds(s, h, c) && !Holds(s, k, c);
      } else {
        assert Holds(s, Source(s, st, h), c) && Holds(s, Source(s, st, k), c);
      }
    }
  }

  /** Where the holder of a channel is after the step. */
  function Target(s: State, st: Step, s': State, h: Holder, c: nat): Holder {
    if st.Route? && s'.reader.Delivering? && s'.reader.ch == c then Carrier
    else if (st.TerminateByClose? || st.TerminateByReader?) && h == Table then Detached(|s.terms|)
    else h
  }

  lemma HoldersGoOn(s: State, st: Step, s': State, h: Holder, c: nat)
    requires Inv(s) && Next(s, st) == Some(s') && Fits(s')
    requires c < |s.calls| && Holds(s, h, c) && Waits(s'.calls[c])
    ensures s'.done || s'.calls[c].buf.Some? || Holds(s', Target(s, st, s', h, c), c)
  {
    hide AnswerInv;
    if st.TerminateByClose? || st.TerminateByReader? {
      if h == Table { assert s.t.pending[c + 1] in s.t.pending.Values; }
    }
    assert forall f: nat, ch: nat :: f < |s.terms| && ch in s.terms[f].todo ==> Holds(s, Detached(f), ch);
    hide LinearInv;
    if OfCall(st) { hide NextReader, NextTerminator; }
    else if OfReader(st) { hide NextCall, NextTerminator; }
    else { hide NextCall, NextReader; }
  }

  lemma CallsGoOn(s: State, st: Step, s': State)
    requires Next(s, st) == Some(s')
    ensures s.done ==> s'.done
    ensures |s'.calls| == |s.calls| + (if st.StartCall? then 1 else 0)
    ensures forall c :: 0 <= c < |s.calls| && Waits(s'.calls[c]) ==>
        Waits(s.calls[c]) && (s.calls[c].buf.Some? ==> s'.calls[c].buf.Some?)
  {
    if OfCall(st) { hide NextReader, NextTerminator; }
    else if OfReader(st) { hide NextCall, NextTerminator; }
    else { hide NextCall, NextReader; }
  }

  /** A waiting call keeps somebody to answer it; no removal can take another call's entry. */
  lemma StepKeepsCalls(s: State, st: Step, s': State)
    requires Inv(s) && NoneLost(s) && Next(s, st) == Some(s') && Fits(s')
    ensures NoneLost(s')
  {
    CallsGoOn(s, st, s');
    assert st.StartCall? ==> Holds(s', Table, |s.calls|);
    hide Inv, Next;
    forall c | 0 <= c < |s'.calls| && Waits(s'.calls[c]) ensures Reachable(s', c) {
      if c < |s.calls| {
        assert Reachable(s, c);
        if !s.done && s.calls[c].buf.None? {
          var h :| Holds(s, h, c);
          HoldersGoOn(s, st, s', h, c);
        }
      }
    }
  }

  lemma {:induction false} RunInv(tr: seq<State>, steps: seq<Step>, i: nat)
    requires Run(tr, steps) && i < |tr| && Fits(tr[i])
    ensures Inv(tr[i]) && NoneLost(tr[i]) && ReaderInv(tr[i])
  {
    if i == 0 {
      forall h, c: nat ensures !Holds(START, h, c) {}
    } else {
      var s, st, s' := tr[i - 1], steps[i - 1], tr[i];
      Grows(s, st, s');
      RunInv(tr, steps, i - 1);
      hide Next, NoneLost, LinearInv, AnswerInv, TableInv, ReaderInv;
      StepKeepsTable(s, st, s');
      StepKeepsAnswers(s, st, s');
      StepKeepsLinear(s, st, s');
      StepKeepsCalls(s, st, s');
      StepKeepsReader(s, st, s');
    }
  }

  // ----- What this gives over whole runs -----

  /** A response a call returns carries its id and was decoded from the connection. */
  lemma Correlation(tr: seq<State>, steps: seq<Step>, i: nat, c: nat)
    requires Run(tr, steps) && i < |tr| && Fits(tr[i])
    requires c < |tr[i].calls| && tr[i].calls[c].phase.Returned? && tr[i].calls[c].phase.res.Responded?
    ensures tr[i].calls[c].phase.res.response.id == tr[i].calls[c].id
    ensures tr[i].calls[c].phase.res.response in tr[i].received
  {
    RunInv(tr, steps, i);
  }

  lemma SendsFindRoom(s: State)
    requires LinearInv(s)
    ensures s.reader.Delivering? ==> Next(s, DeliverReply).Some?
    ensures forall f: nat, ch: nat :: Next(s, FlushDefault(f, ch)).None?
    ensures forall f: nat, ch: nat :: f < |s.terms| && ch in s.terms[f].todo ==> Next(s, FlushSend(f, ch)).Some?
  {
    if s.reader.Delivering? { assert Holds(s, Carrier, s.reader.ch); }
    forall f: nat, ch: nat
      ensures f < |s.terms| && ch in s.terms[f].todo ==>
          ch < |s.calls| && s.calls[ch].buf.None? && Next(s, FlushSend(f, ch)).Some?
      ensures Next(s, FlushDefault(f, ch)).None?
    {
      if f < |s.terms| && ch in s.terms[f].todo { assert Holds(s, Detached(f), ch); }
    }
  }

  /** One holder and one value per reply channel; sends never block and `default` is dead. */
  lemma LinearOwnership(tr: seq<State>, steps: seq<Step>, i: nat)
    requires Run(tr, steps) && i < |tr| && Fits(tr[i])
    ensures forall c :: 0 <= c < |tr[i].calls| ==> tr[i].calls[c].sends <= 1
    ensures forall h, k, c: nat :: Holds(tr[i], h, c) && Holds(tr[i], k, c) ==> h == k
    ensures tr[i].reader.Delivering? ==> Next(tr[i], DeliverReply).Some?
    ensures forall f: nat, ch: nat :: Next(tr[i], FlushDefault(f, ch)).None?
    ensures forall f: nat, ch: nat :: f < |tr[i].terms| && ch in tr[i].terms[f].todo ==>
        Next(tr[i], FlushSend(f, ch)).Some?
  {
    RunInv(tr, steps, i);
    SendsFindRoom(tr[i]);
    hide Next, Run;
  }

  /** Ids never restart, so removePending only ever deletes the caller's own entry. */
  lemma RemovalIsOwn(tr: seq<State>, steps: seq<Step>, i: nat, c: nat)
    requires Run(tr, steps) && i < |steps| && Fits(tr[i]) && steps[i] == RemoveEntry(c)
    ensures forall id :: id in tr[i].t.pending && id !in tr[i + 1].t.pending ==> tr[i].t.pending[id] == c
  {
    RunInv(tr, steps, i);
    assert Next(tr[i], steps[i]) == Some(tr[i + 1]);
  }

  ghost predicate CanProceed(s: State, c: nat) {
    || Next(s, SeeDone(c)).Some?
    || Next(s, Receive(c)).Some?
    || (s.reader.Delivering? && s.reader.ch == c && Next(s, DeliverReply).Some?)
    || (exists f: nat :: f < |s.terms| && c in s.terms[f].todo && Next(s, FlushSend(f, c)).Some?)
    || (Holds(s, Table, c) && (!s.reader.Stopped? || Terminating(s)))
  }

  /**
   No call is ever lost, in any run: its result or the end of the transport is there, its channel
   is about to be sent on, or it is in the table while the reader runs or a terminate is on its
   way to close `done`.
   */
  lemma NoStuckCall(tr: seq<State>, steps: seq<Step>, i: nat, c: nat)
    requires Run(tr, steps) && i < |tr| && Fits(tr[i])
    requires c < |tr[i].calls| && tr[i].calls[c].phase.Waiting?
    ensures CanProceed(tr[i], c)
  {
    var s := tr[i];
    RunInv(tr, steps, i);
    LinearOwnership(tr, steps, i);
    assert Reachable(s, c);
    if !s.done && s.calls[c].buf.None? {
      var h :| Holds(s, h, c);
      match h
      case Table =>
      case Carrier =>
      case Detached(f) => assert c in s.terms[f].todo;
    }
  }
}
