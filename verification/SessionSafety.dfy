/** Invariants of the session protocol, kept by every step, and what they give over whole runs. */
module SessionSafety {
  import opened Wrappers
  import opened Transport
  import opened SessionProtocol

  // ----- The invariants -----

  /** The pending table holds exactly current-session calls under their own ids. */
  ghost predicate TableInv(s: State) {
    && (forall id :: id in s.sh.pending ==>
          && 1 <= id <= s.sh.nextID
          && s.sh.pending[id] < |s.calls|
          && s.calls[s.sh.pending[id]].id == id
          && s.calls[s.sh.pending[id]].session == s.sh.sessionID)
    && (s.sh.conn.None? || s.sh.closed ==> s.sh.pending == map[])
    && (s.sh.closed ==> s.sh.conn.None?)
    && (s.done ==> s.sh.closed)
  }

  /** Counters agree with what was created; ids repeat across sessions but never within one. */
  ghost predicate CallInv(s: State) {
    && s.sh.nextID <= |s.calls|
    && s.sh.sessionID == |s.conns|
    && (forall c :: 0 <= c < |s.calls| ==>
          && 1 <= s.calls[c].session <= |s.conns|
          && s.calls[c].conn == s.conns[s.calls[c].session - 1]
          && (s.calls[c].session == s.sh.sessionID ==> 1 <= s.calls[c].id <= s.sh.nextID))
    && (forall c, d :: 0 <= c < d < |s.calls| && s.calls[c].session == s.calls[d].session ==>
          s.calls[c].id != s.calls[d].id)
  }

  /** Session k and its reader use connection k. */
  ghost predicate ConnInv(s: State) {
    && (s.sh.conn.Some? ==> 1 <= |s.conns| && s.sh.conn.value == s.conns[|s.conns| - 1])
    && (forall sid :: sid in s.readers ==> 1 <= sid <= |s.conns| && s.readers[sid].conn == s.conns[sid - 1])
    && (forall f :: 0 <= f < |s.flushers| && s.flushers[f].kind.Swapping? ==>
          1 <= s.flushers[f].kind.sid <= |s.conns|
          && s.flushers[f].kind.conn == s.conns[s.flushers[f].kind.sid - 1]
          && (!s.flushers[f].finished ==> s.flushers[f].kind.sid !in s.readers))
    && (forall f :: 0 <= f < |s.flushers| && s.flushers[f].kind.Closing? ==> s.sh.closed)
    && (forall f, g :: 0 <= f < g < |s.flushers| && s.flushers[f].kind.Swapping? && s.flushers[g].kind.Swapping? ==>
          s.flushers[f].kind.sid < s.flushers[g].kind.sid)
  }

  /** The three places a reply channel can be held before anything is sent on it. */
  datatype Holder = Table | Carrier(sid: nat) | Detached(f: nat)

  ghost predicate Holds(s: State, h: Holder, c: nat) {
    match h
    case Table => c < |s.calls| && s.calls[c].id in s.sh.pending && s.sh.pending[s.calls[c].id] == c
    case Carrier(sid) => sid in s.readers && s.readers[sid].pc.Delivering? && s.readers[sid].pc.ch == c
    case Detached(f) => f < |s.flushers| && c in s.flushers[f].todo
  }

  /** A channel has at most one holder, and none once something was sent on it. */
  ghost predicate LinearInv(s: State) {
    && (forall h, c: nat :: Holds(s, h, c) ==> c < |s.calls| && s.calls[c].sends == 0)
    && (forall h, k, c: nat :: Holds(s, h, c) && Holds(s, k, c) ==> h == k)
    && (forall c :: 0 <= c < |s.calls| ==> s.calls[c].sends <= 1 && (s.calls[c].sends == 0 ==> s.calls[c].buf.None?))
  }

  /** `res`, if it is a response, answers this very call on the connection its request used. */
  predicate Answers(res: CallResult, call: Call) {
    res.Answer? ==> res.id == call.id && res.conn == call.conn && res.session == call.session
  }

  ghost predicate AnswerInv(s: State) {
    && (forall sid :: sid in s.readers && s.readers[sid].pc.Delivering? && s.readers[sid].pc.ch < |s.calls| ==>
          Answers(s.readers[sid].pc.res, s.calls[s.readers[sid].pc.ch]))
    && (forall c :: 0 <= c < |s.calls| && s.calls[c].buf.Some? ==> Answers(s.calls[c].buf.value, s.calls[c]))
    && (forall c :: 0 <= c < |s.calls| && s.calls[c].phase.Returned? ==> Answers(s.calls[c].phase.res, s.calls[c]))
  }

  ghost predicate CoreInv(s: State) {
    TableInv(s) && CallInv(s) && ConnInv(s)
  }

  ghost predicate Inv(s: State) {
    CoreInv(s) && LinearInv(s) && AnswerInv(s)
  }

  // ----- Preservation -----

  lemma StartKeeps(s: State)
    requires Initial(s)
    ensures Inv(s)
  {
  }

  lemma Grows(s: State, st: Step, s': State)
    requires Next(s, st) == Some(s')
    ensures |s.calls| <= |s'.calls| && |s.conns| <= |s'.conns| && (Fits(s') ==> Fits(s))
  {
    WhoSteps(s, st, s');
    hide Next;
    if OfCall(st) { hide NextFlusher, NextReader, NextReply; }
    else if OfReader(st) { hide NextFlusher, NextCall, NextReply; }
    else if OfReply(st) { hide NextFlusher, NextCall, NextReader; }
    else { hide NextCall, NextReader, NextReply; }
  }

  /** Steps on requests, notes, contexts and the wire do not touch the correlation state. */
  ghost predicate SameCore(s: State, s': State) {
    s' == s.(requests := s'.requests, notes := s'.notes, cancelled := s'.cancelled, wire := s'.wire)
  }

  lemma SameCoreKeeps(s: State, s': State)
    requires Inv(s) && SameCore(s, s')
    ensures Inv(s')
  {
    forall h, c: nat | Holds(s', h, c) ensures Holds(s, h, c) {}
  }

  /** A reader moves to a place where it carries nothing. */
  lemma ReaderMovesKeeps(s: State, sid: nat, pc: ReaderPc)
    requires Inv(s) && sid in s.readers && !pc.Delivering?
    ensures Inv(Goto(s, sid, pc))
  {
    var s' := Goto(s, sid, pc);
    forall h, c: nat | Holds(s', h, c) ensures Holds(s, h, c) {}
  }

  /** A call moves on or its channel is used; its identity stays. */
  function MoveCall(s: State, c: nat, phase: Phase, buf: Option<CallResult>, sends: nat): State
    requires c < |s.calls|
  {
    SetCall(s, c, s.calls[c].(phase := phase, buf := buf, sends := sends))
  }

  lemma MoveKeepsTable(s: State, c: nat, phase: Phase, buf: Option<CallResult>, sends: nat)
    requires CoreInv(s) && c < |s.calls|
    ensures CoreInv(MoveCall(s, c, phase, buf, sends))
  {
    var s' := MoveCall(s, c, phase, buf, sends);
    assert forall d :: 0 <= d < |s.calls| ==>
        s'.calls[d].id == s.calls[d].id && s'.calls[d].session == s.calls[d].session
            && s'.calls[d].conn == s.calls[d].conn;
  }

  lemma MoveKeepsLinear(s: State, c: nat, phase: Phase, buf: Option<CallResult>, sends: nat)
    requires LinearInv(s) && c < |s.calls|
    requires sends == s.calls[c].sends || (sends == 1 && forall h :: !Holds(s, h, c))
    requires sends == 0 ==> buf.None?
    ensures LinearInv(MoveCall(s, c, phase, buf, sends))
  {
    var s' := MoveCall(s, c, phase, buf, sends);
    assert forall d :: 0 <= d < |s.calls| ==> s'.calls[d].id == s.calls[d].id;
    forall h, d: nat | Holds(s', h, d) ensures Holds(s, h, d) {}
  }

  lemma MoveKeepsAnswers(s: State, c: nat, phase: Phase, buf: Option<CallResult>, sends: nat)
    requires AnswerInv(s) && c < |s.calls|
    requires buf.Some? ==> Answers(buf.value, s.calls[c])
    requires phase.Returned? ==> Answers(phase.res, s.calls[c])
    ensures AnswerInv(MoveCall(s, c, phase, buf, sends))
  {
  }

  lemma MoveKeeps(s: State, c: nat, phase: Phase, buf: Option<CallResult>, sends: nat)
    requires Inv(s) && c < |s.calls|
    requires sends == s.calls[c].sends || (sends == 1 && forall h :: !Holds(s, h, c))
    requires sends == 0 ==> buf.None?
    requires buf.Some? ==> Answers(buf.value, s.calls[c])
    requires phase.Returned? ==> Answers(phase.res, s.calls[c])
    ensures Inv(MoveCall(s, c, phase, buf, sends))
  {
    MoveKeepsTable(s, c, phase, buf, sends);
    MoveKeepsLinear(s, c, phase, buf, sends);
    MoveKeepsAnswers(s, c, phase, buf, sends);
  }

  /** A call changes phase, returning with an error or with what its channel holds. */
  lemma PhaseKeeps(s: State, c: nat, phase: Phase, takes: bool)
    requires Inv(s) && c < |s.calls|
    requires phase.Returned? ==> phase.res.Failed? || s.calls[c].buf == Some(phase.res)
    ensures Inv(MoveCall(s, c, phase, if takes then None else s.calls[c].buf, s.calls[c].sends))
  {
    MoveKeeps(s, c, phase, if takes then None else s.calls[c].buf, s.calls[c].sends);
  }

  lemma RegisterKeepsTable(s: State, s': State)
    requires CoreInv(s) && StartCallStep(s) == Some(s') && Fits(s')
    ensures TableInv(s') && ConnInv(s')
  {
    hide ConnInv;
    assert ConnInv(s') by { RegisterKeepsConn(s, s'); }
  }

  lemma RegisterKeepsConn(s: State, s': State)
    requires ConnInv(s) && StartCallStep(s) == Some(s')
    ensures ConnInv(s')
  {
  }

  lemma RegisterKeepsCalls(s: State, s': State)
    requires TableInv(s) && CallInv(s) && StartCallStep(s) == Some(s') && Fits(s')
    requires s.sh.conn.Some? ==> 1 <= |s.conns| && s.sh.conn.value == s.conns[|s.conns| - 1]
    ensures CallInv(s')
  {
    var c := |s.calls|;
    assert s'.calls[c].id == s.sh.nextID + 1;
    forall d | 0 <= d < c && s.calls[d].session == s.sh.sessionID ensures s.calls[d].id != s'.calls[c].id {}
  }

  /** The new id is not in the table, so no other call's entry is overwritten. */
  lemma RegisterKeepsLinear(s: State, s': State)
    requires TableInv(s) && CallInv(s) && LinearInv(s) && StartCallStep(s) == Some(s') && Fits(s')
    ensures s'.sh.nextID !in s.sh.pending && LinearInv(s')
  {
    forall h, d: nat | Holds(s', h, d) ensures if d == |s.calls| then h == Table else Holds(s, h, d) {
      if d == |s.calls| && h != Table { assert Holds(s, h, d); }
    }
  }

  lemma RegisterKeepsAnswers(s: State, s': State)
    requires AnswerInv(s) && LinearInv(s) && StartCallStep(s) == Some(s')
    ensures AnswerInv(s')
  {
    forall sid | sid in s.readers && s.readers[sid].pc.Delivering? ensures s.readers[sid].pc.ch < |s.calls| {
      assert Holds(s, Carrier(sid), s.readers[sid].pc.ch);
    }
  }

  lemma RegisterKeeps(s: State, s': State)
    requires Inv(s) && StartCallStep(s) == Some(s') && Fits(s')
    ensures Inv(s')
  {
    assert s.sh.conn.Some? ==> 1 <= |s.conns| && s.sh.conn.value == s.conns[|s.conns| - 1];
    RegisterKeepsTable(s, s');
    RegisterKeepsCalls(s, s');
    RegisterKeepsLinear(s, s');
    RegisterKeepsAnswers(s, s');
  }

  /** Removing an entry by id keeps the invariants, whoever's entry it was, and frees its channel. */
  lemma RemoveKeeps(s: State, id: nat)
    requires Inv(s)
    ensures Inv(s.(sh := Remove(s.sh, id)))
  {
    RemoveKeepsLinear(s, id);
    hide LinearInv;
  }

  lemma RemoveKeepsLinear(s: State, id: nat)
    requires LinearInv(s)
    ensures LinearInv(s.(sh := Remove(s.sh, id)))
  {
    var s' := s.(sh := Remove(s.sh, id));
    forall h, d: nat | Holds(s', h, d) ensures Holds(s, h, d) {}
  }

  lemma RouteKeeps(s: State, sid: nat, s': State)
    requires Inv(s) && RouteStep(s, sid) == Some(s')
    ensures Inv(s')
  {
    var frame := At(s, sid).frame;
    if frame.InReply? && Take(s.sh, sid, frame.id).Found? {
      TakeKeeps(s, sid, frame, s');
    } else {
      ReaderMovesKeeps(s, sid, s'.readers[sid].pc);
    }
  }

  lemma ReaderTakesKeepsLinear(s: State, sid: nat, ch: nat, res: CallResult)
    requires LinearInv(s) && sid in s.readers && !s.readers[sid].pc.Delivering?
    requires ch < |s.calls| && s.calls[ch].sends == 0 && (forall h :: !Holds(s, h, ch))
    ensures LinearInv(Goto(s, sid, Delivering(ch, res)))
  {
    var s' := Goto(s, sid, Delivering(ch, res));
    forall h, d: nat | Holds(s', h, d) ensures if h == Carrier(sid) then d == ch else Holds(s, h, d) && d != ch {
      if h != Carrier(sid) { assert Holds(s, h, d); }
    }
  }

  lemma ReaderTakesKeeps(s: State, sid: nat, ch: nat, res: CallResult)
    requires Inv(s) && sid in s.readers && !s.readers[sid].pc.Delivering?
    requires ch < |s.calls| && s.calls[ch].sends == 0 && (forall h :: !Holds(s, h, ch))
    requires Answers(res, s.calls[ch])
    ensures Inv(Goto(s, sid, Delivering(ch, res)))
  {
    ReaderTakesKeepsLinear(s, sid, ch, res);
    hide LinearInv;
  }

  /** deliverResponse moves a channel from the table to the reader, with the answer to its call. */
  lemma TakeKeeps(s: State, sid: nat, frame: Frame, s': State)
    requires Inv(s) && At(s, sid) == Routing(frame) && frame.InReply? && Take(s.sh, sid, frame.id).Found?
    requires RouteStep(s, sid) == Some(s')
    ensures Inv(s')
  {
    var ch := s.sh.pending[frame.id];
    var mid := s.(sh := Remove(s.sh, frame.id));
    RemoveKeeps(s, frame.id);
    assert Holds(s, Table, ch);
    assert forall h | Holds(mid, h, ch) :: Holds(s, h, ch);
    var res := Answer(sid, s.readers[sid].conn, frame.id, frame.body);
    ReaderTakesKeeps(mid, sid, ch, res);
    assert s' == Goto(mid, sid, Delivering(ch, res));
  }

  lemma DeliverKeeps(s: State, sid: nat, s': State)
    requires Inv(s) && DeliverReplyStep(s, sid) == Some(s')
    ensures Inv(s')
  {
    var ch, res := At(s, sid).ch, At(s, sid).res;
    assert Holds(s, Carrier(sid), ch);
    assert Answers(res, s.calls[ch]);
    var mid := Goto(s, sid, Reading);
    ReaderMovesKeeps(s, sid, Reading);
    assert s.calls[ch].sends == 0;
    hide Inv;
    assert forall h | Holds(mid, h, ch) :: Holds(s, h, ch);
    MoveKeeps(mid, ch, s.calls[ch].phase, Some(res), s.calls[ch].sends + 1);
    assert s' == MoveCall(mid, ch, s.calls[ch].phase, Some(res), s.calls[ch].sends + 1);
  }

  lemma FlushSendKeeps(s: State, f: nat, ch: nat, s': State)
    requires Inv(s) && FlushSendStep(s, f, ch) == Some(s')
    ensures Inv(s')
  {
    var fl := s.flushers[f];
    assert Holds(s, Detached(f), ch);
    var mid := SetFlusher(s, f, fl.(todo := fl.todo - {ch}));
    FlusherMovesKeeps(s, f, fl.(todo := fl.todo - {ch}));
    assert forall h | Holds(mid, h, ch) :: Holds(s, h, ch);
    assert s.calls[ch].sends == 0;
    hide Inv;
    MoveKeeps(mid, ch, s.calls[ch].phase, Some(Failed(fl.err)), s.calls[ch].sends + 1);
    assert s' == MoveCall(mid, ch, s.calls[ch].phase, Some(Failed(fl.err)), s.calls[ch].sends + 1);
  }

  /** A flusher changes without taking a channel. */
  lemma FlusherMovesKeeps(s: State, f: nat, fl: Flusher)
    requires Inv(s) && f < |s.flushers|
    requires fl.todo <= s.flushers[f].todo && fl.kind == s.flushers[f].kind
    requires s.flushers[f].finished ==> fl.finished
    ensures Inv(SetFlusher(s, f, fl))
  {
    var s' := SetFlusher(s, f, fl);
    forall h, d: nat | Holds(s', h, d) ensures Holds(s, h, d) {}
  }

  ghost predicate Unclaimed(s: State, sid: nat) {
    forall f :: 0 <= f < |s.flushers| && s.flushers[f].kind.Swapping? && s.flushers[f].kind.sid == sid ==>
        s.flushers[f].finished
  }

  lemma NewReaderKeepsLinear(s: State, sid: nat, conn: Conn)
    requires LinearInv(s) && AnswerInv(s) && sid !in s.readers
    ensures LinearInv(s.(readers := s.readers[sid := Reader(conn, Reading)]))
    ensures AnswerInv(s.(readers := s.readers[sid := Reader(conn, Reading)]))
  {
    var s' := s.(readers := s.readers[sid := Reader(conn, Reading)]);
    forall h, d: nat | Holds(s', h, d) ensures Holds(s, h, d) {}
  }

  lemma NewReaderKeepsCore(s: State, sid: nat, conn: Conn)
    requires CoreInv(s) && sid !in s.readers && 1 <= sid <= |s.conns| && conn == s.conns[sid - 1] && Unclaimed(s, sid)
    ensures CoreInv(s.(readers := s.readers[sid := Reader(conn, Reading)]))
  {
  }

  /** Starting a session's reader: no other flusher will start one for it. */
  lemma FinishKeeps(s: State, f: nat, s': State)
    requires Inv(s) && FinishFlushStep(s, f) == Some(s')
    ensures Inv(s')
  {
    var mid := SetFlusher(s, f, s.flushers[f].(finished := true));
    FlusherMovesKeeps(s, f, s.flushers[f].(finished := true));
    match s.flushers[f].kind
    case Closing => DoneKeeps(mid);
    case AfterEnd =>
    case Swapping(sid, conn) =>
      NewReaderKeepsCore(mid, sid, conn);
      NewReaderKeepsLinear(mid, sid, conn);
  }

  lemma DoneKeeps(s: State)
    requires Inv(s) && s.sh.closed
    ensures Inv(s.(done := true))
  {
    var s' := s.(done := true);
    forall h, d: nat | Holds(s', h, d) ensures Holds(s, h, d) {}
  }

  /** A whole table moves into a new flusher; `sh` and `conns` may change as they do in the source. */
  lemma DetachKeeps(s: State, sh: Shared<nat>, conns: seq<Conn>, fl: Flusher, s': State)
    requires Inv(s) && fl.todo == s.sh.pending.Values && !fl.finished
    requires s' == s.(sh := sh, conns := conns, flushers := s.flushers + [fl])
    requires sh.pending == map[] && CoreInv(s')
    ensures Inv(s')
  {
    var f := |s.flushers|;
    forall h, d: nat | Holds(s', h, d)
      ensures if h == Detached(f) then Holds(s, Table, d) else h != Table && Holds(s, h, d)
    {
      if h == Detached(f) { assert d in s.sh.pending.Values; }
    }
  }

  lemma EndDetachKeeps(s: State, sid: nat, s': State)
    requires Inv(s) && End(s.sh, sid).Some?
    requires s' == s.(sh := End(s.sh, sid).value,
                      flushers := s.flushers + [Flusher(AfterEnd, s.sh.cancel, s.sh.pending.Values, ErrDisconnected,
                          false)])
    ensures Inv(s')
  {
    DetachKeeps(s, s'.sh, s.conns, s'.flushers[|s.flushers|], s');
  }

  lemma EndKeeps(s: State, sid: nat, s': State)
    requires Inv(s) && EndSessionStep(s, sid) == Some(s')
    ensures Inv(s')
  {
    hide Inv;
    ReaderMovesKeeps(s, sid, Stopped);
    if End(s.sh, sid).Some? {
      EndDetachKeeps(Goto(s, sid, Stopped), sid, s');
    }
  }

  lemma CloseKeeps(s: State, s': State)
    requires Inv(s) && CloseStep(s) == Some(s')
    ensures Inv(s')
  {
    DetachKeeps(s, s'.sh, s.conns, s'.flushers[|s.flushers|], s');
  }

  lemma SwapKeeps(s: State, conn: Conn, s': State)
    requires Inv(s) && SwapStep(s, conn) == Some(s') && Fits(s')
    ensures Inv(s')
  {
    DetachKeeps(s, s'.sh, s'.conns, s'.flushers[|s.flushers|], s');
  }

  /** What a step of the reader of `st.sid` can change, apart from delivering, looking up and ending. */
  lemma ReaderFrame(s: State, st: Step, s': State)
    requires NextReader(s, st) == Some(s')
    ensures st.sid in s.readers && st.sid in s'.readers
    ensures s'.readers == s.readers[st.sid := s.readers[st.sid].(pc := s'.readers[st.sid].pc)]
    ensures s'.conns == s.conns && s'.done == s.done && s'.cancelled == s.cancelled && s'.wire == s.wire
    ensures !st.DeliverReply? ==> s'.calls == s.calls
    ensures !st.EndSession? ==> s'.flushers == s.flushers
    ensures !st.EndSession? && !st.Route? ==> s'.sh == s.sh
    ensures s.readers[st.sid].pc.Delivering? ==> st.DeliverReply? || (st.DropReply? && s.done)
    ensures s'.readers[st.sid].pc.Delivering? ==> st.Route?
  {
    hide Take, End, Current, Next;
  }

  /** A reader only changes the table, and only stops when its session is over or `done` is closed. */
  lemma ReaderStops(s: State, st: Step, s': State)
    requires NextReader(s, st) == Some(s') && !st.EndSession?
    ensures s'.sh == s.sh.(pending := s'.sh.pending)
    ensures At(s', st.sid).Stopped? ==> !Current(s.sh, st.sid) || s.done
  {
  }

  /** Other steps only ever add a reader, when a Reconnect finishes its flush. */
  lemma OtherFrame(s: State, st: Step, s': State)
    requires Next(s, st) == Some(s') && !OfReader(st)
    ensures forall sid :: sid in s'.readers ==>
              s'.readers[sid].pc == Reading || (sid in s.readers && s'.readers[sid] == s.readers[sid])
    ensures forall sid :: sid in s.readers && !st.FinishFlush? ==> sid in s'.readers
  {
    WhoSteps(s, st, s');
    hide Next, NextReader;
    if OfCall(st) { hide NextFlusher, NextReply; }
    else if OfReply(st) { hide NextFlusher, NextCall; }
    else { hide NextCall, NextReply; }
  }

  lemma CallStepKeeps(s: State, st: Step, s': State)
    requires Inv(s) && NextCall(s, st) == Some(s') && Fits(s')
    ensures Inv(s')
  {
    hide Inv;
    match st
    case StartCall => RegisterKeeps(s, s');
    case WriteCall(c, ok) =>
      PhaseKeeps(s, c, s'.calls[c].phase, false);
      SameCoreKeeps(MoveCall(s, c, s'.calls[c].phase, s.calls[c].buf, s.calls[c].sends), s');
    case GiveUp(c) => PhaseKeeps(s, c, s'.calls[c].phase, false);
    case SeeDone(c) => PhaseKeeps(s, c, s'.calls[c].phase, false);
    case Receive(c) => PhaseKeeps(s, c, s'.calls[c].phase, true);
    case RemoveEntry(c) =>
      PhaseKeeps(s, c, s'.calls[c].phase, false);
      RemoveKeeps(SetCall(s, c, s'.calls[c]), s.calls[c].id);
  }

  lemma ReaderStepKeeps(s: State, st: Step, s': State)
    requires Inv(s) && NextReader(s, st) == Some(s')
    ensures Inv(s')
  {
    hide Inv;
    match st
    case Route(sid) => RouteKeeps(s, sid, s');
    case DeliverReply(sid) => DeliverKeeps(s, sid, s');
    case EndSession(sid) => EndKeeps(s, sid, s');
    case Offer(sid) =>
      ReaderMovesKeeps(s, sid, Reading);
      SameCoreKeeps(Goto(s, sid, Reading), s');
    case ReadFrame(sid, _) => ReaderMovesKeeps(s, sid, s'.readers[sid].pc);
    case CheckSession(sid) => ReaderMovesKeeps(s, sid, s'.readers[sid].pc);
    case DropReply(sid) => ReaderMovesKeeps(s, sid, Stopped);
    case AbandonOffer(sid) => ReaderMovesKeeps(s, sid, Stopped);
  }

  lemma FlusherStepKeeps(s: State, st: Step, s': State)
    requires Inv(s) && NextFlusher(s, st) == Some(s') && Fits(s')
    ensures Inv(s')
  {
    hide Inv;
    match st
    case CancelContext(f) =>
      FlusherMovesKeeps(s, f, s'.flushers[f]);
      SameCoreKeeps(SetFlusher(s, f, s'.flushers[f]), s');
    case FlushSend(f, ch) => FlushSendKeeps(s, f, ch, s');
    case FlushDefault(f, ch) => FlusherMovesKeeps(s, f, s'.flushers[f]);
    case FinishFlush(f) => FinishKeeps(s, f, s');
    case CloseTransport => CloseKeeps(s, s');
    case SwapConn(conn) => SwapKeeps(s, conn, s');
  }

  lemma ReplyStepKeeps(s: State, st: Step, s': State)
    requires Inv(s) && NextReply(s, st) == Some(s')
    ensures Inv(s')
  {
    hide Inv;
    SameCoreKeeps(s, s');
  }

  lemma StepKeeps(s: State, st: Step, s': State)
    requires Inv(s) && Next(s, st) == Some(s') && Fits(s')
    ensures Inv(s')
  {
    hide Inv;
    WhoSteps(s, st, s');
    hide Next, NextCall, NextReader, NextReply, NextFlusher;
    if OfCall(st) { CallStepKeeps(s, st, s'); }
    else if OfReader(st) { ReaderStepKeeps(s, st, s'); }
    else if OfReply(st) { ReplyStepKeeps(s, st, s'); }
    else { FlusherStepKeeps(s, st, s'); }
  }

  lemma {:induction false} RunInv(tr: seq<State>, steps: seq<Step>, i: nat)
    requires Run(tr, steps) && i < |tr| && Fits(tr[i])
    ensures Inv(tr[i])
  {
    if i == 0 {
      StartKeeps(tr[0]);
    } else {
      Grows(tr[i - 1], steps[i - 1], tr[i]);
      RunInv(tr, steps, i - 1);
      StepKeeps(tr[i - 1], steps[i - 1], tr[i]);
    }
  }
}
