/**
 JSONRPCTransport as a transition system: any number of Call, Reconnect, Close, Reply and
 readLoop goroutines interleave. Every critical section under the mutex is one step, and so is
 every channel operation, wire write and context cancellation made outside it.

 Calls, reply channels and inbound requests are numbered in the order they are created; call
 `c` owns channel `c`. Session `k` reads from `conns[k - 1]`.
 */
module SessionProtocol {
  import opened Wrappers
  import opened Transport

  /** Where a Call is: writing its request, selecting, about to run removePending, or done. */
  datatype Phase = Writing | Waiting | Removing(why: Failure) | Returned(res: CallResult)

  /** `session` and `conn` are those of the critical section that registered the call. */
  datatype Call = Call(id: nat, session: nat, conn: Conn, phase: Phase, buf: Option<CallResult>, sends: nat)

  /** A decoded message. Malformed stands for every decoded message readLoop ends the session on. */
  datatype Frame = Malformed | InRequest(rid: string) | InNote(note: string) | InReply(id: nat, body: Body)

  datatype ReaderPc =
    | Reading
    | Decoded(frame: Frame)
    | Routing(frame: Frame)
    | Delivering(ch: nat, res: CallResult)
    | Offering(frame: Frame)
    | Ending
    | Stopped

  datatype Reader = Reader(conn: Conn, pc: ReaderPc)

  /** Which operation detached a table; Swapping starts its session's reader when it is done. */
  datatype FlushBy = Closing | Swapping(sid: nat, conn: Conn) | AfterEnd

  datatype Flusher = Flusher(kind: FlushBy, toCancel: Option<nat>, todo: set<nat>, err: Failure, finished: bool)

  datatype ReplyStage = Unanswered | Claimed | Sending(target: Conn) | Settled

  datatype Inbound = Inbound(session: nat, conn: Conn, rid: string, stage: ReplyStage)

  /** One write attempted on a connection. */
  datatype Sent = CallSent(conn: Conn, call: nat) | ReplySent(conn: Conn, req: nat)

  datatype State = State(
    sh: Shared<nat>,
    hasOpener: bool,
    done: bool,
    cancelled: set<nat>,
    conns: seq<Conn>,
    calls: seq<Call>,
    readers: map<nat, Reader>,
    flushers: seq<Flusher>,
    requests: seq<Inbound>,
    notes: seq<(nat, string)>,
    wire: seq<Sent>)

  datatype Step =
    | StartCall
    | WriteCall(c: nat, ok: bool)
    | GiveUp(c: nat)
    | SeeDone(c: nat)
    | Receive(c: nat)
    | RemoveEntry(c: nat)
    | ReadFrame(sid: nat, input: Option<Frame>)
    | CheckSession(sid: nat)
    | Route(sid: nat)
    | DeliverReply(sid: nat)
    | DropReply(sid: nat)
    | Offer(sid: nat)
    | AbandonOffer(sid: nat)
    | EndSession(sid: nat)
    | CancelContext(f: nat)
    | FlushSend(f: nat, ch: nat)
    | FlushDefault(f: nat, ch: nat)
    | FinishFlush(f: nat)
    | CloseTransport
    | SwapConn(conn: Conn)
    | ClaimReply(r: nat)
    | AbandonReply(r: nat)
    | LookupReply(r: nat)
    | WriteReply(r: nat)

  ghost predicate Initial(s: State) {
    exists conn: Option<Conn>, opener: bool :: s == Start(conn, opener)
  }

  function Start(conn: Option<Conn>, opener: bool): State {
    State(Opened(conn), opener, false,
          if conn.Some? then {0} else {},
          if conn.Some? then [conn.value] else [],
          [],
          if conn.Some? then map[1 := Reader(conn.value, Reading)] else map[],
          [], [], [], [])
  }

  predicate OfCall(st: Step) {
    st.StartCall? || st.WriteCall? || st.GiveUp? || st.SeeDone? || st.Receive? || st.RemoveEntry?
  }

  predicate OfReader(st: Step) {
    st.ReadFrame? || st.CheckSession? || st.Route? || st.DeliverReply? || st.DropReply? || st.Offer?
        || st.AbandonOffer? || st.EndSession?
  }

  predicate OfReply(st: Step) {
    st.ClaimReply? || st.AbandonReply? || st.LookupReply? || st.WriteReply?
  }

  /** The state after `st`, or None when `st` cannot happen in `s`. */
  function Next(s: State, st: Step): Option<State> {
    if OfCall(st) then NextCall(s, st)
    else if OfReader(st) then NextReader(s, st)
    else if OfReply(st) then NextReply(s, st)
    else NextFlusher(s, st)
  }

  function NextCall(s: State, st: Step): Option<State> {
    match st
    case StartCall => StartCallStep(s)
    case WriteCall(c, ok) => WriteCallStep(s, c, ok)
    case GiveUp(c) => LeaveSelect(s, c, ErrContext)
    case SeeDone(c) => if s.done then LeaveSelect(s, c, ErrClosed) else None
    case Receive(c) => ReceiveStep(s, c)
    case RemoveEntry(c) => RemoveEntryStep(s, c)
    case _ => None
  }

  function NextReader(s: State, st: Step): Option<State> {
    match st
    case ReadFrame(sid, input) => ReadFrameStep(s, sid, input)
    case CheckSession(sid) => CheckSessionStep(s, sid)
    case Route(sid) => RouteStep(s, sid)
    case DeliverReply(sid) => DeliverReplyStep(s, sid)
    case DropReply(sid) => DropReplyStep(s, sid)
    case Offer(sid) => OfferStep(s, sid)
    case AbandonOffer(sid) => AbandonOfferStep(s, sid)
    case EndSession(sid) => EndSessionStep(s, sid)
    case _ => None
  }

  function NextFlusher(s: State, st: Step): Option<State> {
    match st
    case CancelContext(f) => CancelContextStep(s, f)
    case FlushSend(f, ch) => FlushSendStep(s, f, ch)
    case FlushDefault(f, ch) => FlushDefaultStep(s, f, ch)
    case FinishFlush(f) => FinishFlushStep(s, f)
    case CloseTransport => CloseStep(s)
    case SwapConn(conn) => SwapStep(s, conn)
    case _ => None
  }

  function NextReply(s: State, st: Step): Option<State> {
    match st
    case ClaimReply(r) => ReplyStep(s, r, Unanswered, Claimed)
    case AbandonReply(r) => ReplyStep(s, r, Claimed, Settled)
    case LookupReply(r) => LookupReplyStep(s, r)
    case WriteReply(r) => WriteReplyStep(s, r)
    case _ => None
  }

  /** Splits a step by the kind of goroutine that takes it. */
  lemma WhoSteps(s: State, st: Step, s': State)
    requires Next(s, st) == Some(s')
    ensures OfCall(st) ==> NextCall(s, st) == Some(s')
    ensures OfReader(st) ==> NextReader(s, st) == Some(s')
    ensures OfReply(st) ==> NextReply(s, st) == Some(s')
    ensures !OfCall(st) && !OfReader(st) && !OfReply(st) ==> NextFlusher(s, st) == Some(s')
  {
    hide NextCall, NextReader, NextReply, NextFlusher;
  }

  // ----- Call -----

  function SetCall(s: State, c: nat, call: Call): State
    requires c < |s.calls|
  {
    s.(calls := s.calls[c := call])
  }

  function StartCallStep(s: State): Option<State> {
    var r := Register(s.sh, |s.calls|);
    if r.Err? then None
    else Some(s.(sh := r.value.sh,
                 calls := s.calls + [Call(r.value.id, s.sh.sessionID, r.value.conn, Writing, None, 0)]))
  }

  function WriteCallStep(s: State, c: nat, ok: bool): Option<State> {
    if c < |s.calls| && s.calls[c].phase.Writing? then
      var call := s.calls[c];
      Some(SetCall(s, c, call.(phase := if ok then Waiting else Removing(ErrWrite)))
           .(wire := s.wire + [CallSent(call.conn, c)]))
    else None
  }

  function LeaveSelect(s: State, c: nat, why: Failure): Option<State> {
    if c < |s.calls| && s.calls[c].phase.Waiting? then
      Some(SetCall(s, c, s.calls[c].(phase := Removing(why))))
    else None
  }

  function ReceiveStep(s: State, c: nat): Option<State> {
    if c < |s.calls| && s.calls[c].phase.Waiting? && s.calls[c].buf.Some? then
      Some(SetCall(s, c, s.calls[c].(phase := Returned(s.calls[c].buf.value), buf := None)))
    else None
  }

  /** removePending deletes by id only. */
  function RemoveEntryStep(s: State, c: nat): Option<State> {
    if c < |s.calls| && s.calls[c].phase.Removing? then
      var call := s.calls[c];
      Some(SetCall(s, c, call.(phase := Returned(Failed(call.phase.why))))
           .(sh := Remove(s.sh, call.id)))
    else None
  }

  /** A send on the reply channel of `c`; None when the buffer is full. */
  function Send(s: State, c: nat, v: CallResult): Option<State> {
    if c < |s.calls| && s.calls[c].buf.None? then
      Some(SetCall(s, c, s.calls[c].(buf := Some(v), sends := s.calls[c].sends + 1)))
    else None
  }

  // ----- readLoop -----

  function At(s: State, sid: nat): ReaderPc {
    if sid in s.readers then s.readers[sid].pc else Stopped
  }

  function Goto(s: State, sid: nat, pc: ReaderPc): State
    requires sid in s.readers
  {
    s.(readers := s.readers[sid := s.readers[sid].(pc := pc)])
  }

  function ReadFrameStep(s: State, sid: nat, input: Option<Frame>): Option<State> {
    if At(s, sid).Reading? then Some(Goto(s, sid, if input.None? then Ending else Decoded(input.value)))
    else None
  }

  function CheckSessionStep(s: State, sid: nat): Option<State> {
    if !At(s, sid).Decoded? then None
    else if !Current(s.sh, sid) then Some(Goto(s, sid, Stopped))
    else if At(s, sid).frame.Malformed? then Some(Goto(s, sid, Ending))
    else Some(Goto(s, sid, Routing(At(s, sid).frame)))
  }

  function RouteStep(s: State, sid: nat): Option<State> {
    if !At(s, sid).Routing? then None
    else
      var frame := At(s, sid).frame;
      if !frame.InReply? then
        Some(Goto(s, sid, if Current(s.sh, sid) then Offering(frame) else Stopped))
      else
        match Take(s.sh, sid, frame.id)
        case Stale => Some(Goto(s, sid, Stopped))
        case Unknown => Some(Goto(s, sid, Reading))
        case Found(sh, ch) =>
          var res := Answer(sid, s.readers[sid].conn, frame.id, frame.body);
          Some(Goto(s, sid, Delivering(ch, res)).(sh := sh))
  }

  function DeliverReplyStep(s: State, sid: nat): Option<State> {
    if !At(s, sid).Delivering? then None
    else
      var sent := Send(s, At(s, sid).ch, At(s, sid).res);
      if sent.None? then None else Some(Goto(sent.value, sid, Reading))
  }

  function DropReplyStep(s: State, sid: nat): Option<State> {
    if At(s, sid).Delivering? && s.done then Some(Goto(s, sid, Stopped)) else None
  }

  /** The send on `requests` or `notes`, made after the session check and outside the mutex. */
  function OfferStep(s: State, sid: nat): Option<State> {
    if !At(s, sid).Offering? then None
    else
      match At(s, sid).frame
      case InRequest(rid) =>
        Some(Goto(s, sid, Reading).(requests := s.requests + [Inbound(sid, s.readers[sid].conn, rid, Unanswered)]))
      case InNote(note) => Some(Goto(s, sid, Reading).(notes := s.notes + [(sid, note)]))
      case _ => None
  }

  function AbandonOfferStep(s: State, sid: nat): Option<State> {
    if At(s, sid).Offering? && s.done then Some(Goto(s, sid, Stopped)) else None
  }

  // ----- handleSessionEnd, Close, Reconnect -----

  function EndSessionStep(s: State, sid: nat): Option<State> {
    if !At(s, sid).Ending? then None
    else
      match End(s.sh, sid)
      case None => Some(Goto(s, sid, Stopped))
      case Some(sh) =>
        var f := Flusher(AfterEnd, s.sh.cancel, s.sh.pending.Values, ErrDisconnected, false);
        Some(Goto(s, sid, Stopped).(sh := sh, flushers := s.flushers + [f]))
  }

  function CloseStep(s: State): Option<State> {
    match Shut(s.sh)
    case None => None
    case Some(sh) =>
      var f := Flusher(Closing, s.sh.cancel, s.sh.pending.Values, ErrClosed, false);
      Some(s.(sh := sh, flushers := s.flushers + [f]))
  }

  function SwapStep(s: State, conn: Conn): Option<State> {
    if !s.hasOpener then None
    else
      match Swap(s.sh, conn)
      case None => None
      case Some(sh) =>
        var f := Flusher(Swapping(sh.sessionID, conn), s.sh.cancel, s.sh.pending.Values, ErrDisconnected, false);
        Some(s.(sh := sh, conns := s.conns + [conn], flushers := s.flushers + [f]))
  }

  function SetFlusher(s: State, f: nat, fl: Flusher): State
    requires f < |s.flushers|
  {
    s.(flushers := s.flushers[f := fl])
  }

  function CancelContextStep(s: State, f: nat): Option<State> {
    if f < |s.flushers| && s.flushers[f].toCancel.Some? then
      Some(SetFlusher(s, f, s.flushers[f].(toCancel := None))
           .(cancelled := s.cancelled + {s.flushers[f].toCancel.value}))
    else None
  }

  /** One iteration of the send loop over a detached table, in any order of the channels. */
  function FlushSendStep(s: State, f: nat, ch: nat): Option<State> {
    if f < |s.flushers| && s.flushers[f].toCancel.None? && ch in s.flushers[f].todo then
      var fl := s.flushers[f];
      var sent := Send(s, ch, Failed(fl.err));
      if sent.None? then None else Some(SetFlusher(sent.value, f, fl.(todo := fl.todo - {ch})))
    else None
  }

  /** The `default` branch of that loop: taken only when the buffer is full. */
  function FlushDefaultStep(s: State, f: nat, ch: nat): Option<State> {
    if f < |s.flushers| && s.flushers[f].toCancel.None? && ch in s.flushers[f].todo
        && Send(s, ch, Failed(ErrClosed)).None? then
      var fl := s.flushers[f];
      Some(SetFlusher(s, f, fl.(todo := fl.todo - {ch})))
    else None
  }

  /** After its sends, Close closes `done` and Reconnect starts the reader of its session. */
  function FinishFlushStep(s: State, f: nat): Option<State> {
    if f < |s.flushers| && !s.flushers[f].finished && s.flushers[f].toCancel.None? && s.flushers[f].todo == {} then
      var s' := SetFlusher(s, f, s.flushers[f].(finished := true));
      match s.flushers[f].kind
      case Closing => Some(s'.(done := true))
      case AfterEnd => Some(s')
      case Swapping(sid, conn) => Some(s'.(readers := s.readers[sid := Reader(conn, Reading)]))
    else None
  }

  // ----- Request.Reply and ReplyError -----

  function SetRequest(s: State, r: nat, stage: ReplyStage): State
    requires r < |s.requests|
  {
    s.(requests := s.requests[r := s.requests[r].(stage := stage)])
  }

  function ReplyStep(s: State, r: nat, before: ReplyStage, after: ReplyStage): Option<State> {
    if r < |s.requests| && s.requests[r].stage == before then Some(SetRequest(s, r, after)) else None
  }

  function LookupReplyStep(s: State, r: nat): Option<State> {
    if r < |s.requests| && s.requests[r].stage.Claimed? then
      match ReplyConn(s.sh, s.requests[r].session)
      case Err(_) => Some(SetRequest(s, r, Settled))
      case Ok(conn) => Some(SetRequest(s, r, Sending(conn)))
    else None
  }

  function WriteReplyStep(s: State, r: nat): Option<State> {
    if r < |s.requests| && s.requests[r].stage.Sending? then
      Some(SetRequest(s, r, Settled).(wire := s.wire + [ReplySent(s.requests[r].stage.target, r)]))
    else None
  }

  // ----- Runs -----

  ghost predicate Run(tr: seq<State>, steps: seq<Step>) {
    && |tr| == |steps| + 1
    && Initial(tr[0])
    && forall i :: 0 <= i < |steps| ==> Next(tr[i], steps[i]) == Some(tr[i + 1])
  }

  /** The 64-bit counters have not wrapped: fewer than 2^64 calls and sessions so far. */
  predicate Fits(s: State) {
    |s.calls| < WORD && |s.conns| < WORD
  }
}
