/**
 The shared fields of a JSONRPCTransport and the critical sections under its mutex
 (internal/transport/transport.go and reconnect.go).

 `Shared` is the value of the mutex-protected fields. Each critical section is a function on
 it; class `JSONRPCTransport` performs the same sections in place on real reply channels, and
 module `SessionProtocol` interleaves them.
 */
module Transport {
  import opened Wrappers

  /** The counters are uint64 and wrap. */
  const WORD: nat := 0x1_0000_0000_0000_0000

  function Inc64(n: nat): nat { (n + 1) % WORD }

  datatype Conn = Conn(handle: nat)

  datatype Failure = ErrClosed | ErrDisconnected | ErrAlreadyReplied | ErrReconnectUnsupported | ErrOpen | ErrWrite
      | ErrMarshal | ErrContext

  datatype Body = ResultBody(raw: string) | ErrorBody(code: int, message: string)

  /** What a call receives: a response, with the session and connection it was read on, or an error. */
  datatype CallResult =
    | Answer(session: nat, conn: Conn, id: nat, body: Body)
    | Failed(why: Failure)

  /** `cancel` names the session whose context the stored cancel function ends. */
  datatype Shared<Ch> = Shared(
    conn: Option<Conn>,
    closed: bool,
    sessionID: nat,
    nextID: nat,
    pending: map<nat, Ch>,
    cancel: Option<nat>)

  /** The contexts ended by calling a possibly nil cancel function. */
  function Contexts(cancel: Option<nat>): set<nat> {
    if cancel.Some? then {cancel.value} else {}
  }

  predicate Current<Ch>(sh: Shared<Ch>, sid: nat) {
    !sh.closed && sh.sessionID == sid
  }

  /** newTransport followed by startSessionLocked; a nil stream starts no session. */
  function Opened<Ch>(conn: Option<Conn>): Shared<Ch> {
    if conn.None? then Shared(None, false, 0, 0, map[], Some(0))
    else Shared(conn, false, 1, 0, map[], Some(1))
  }

  datatype Registration<Ch> = Registration(sh: Shared<Ch>, id: nat, conn: Conn)

  function Register<Ch>(sh: Shared<Ch>, ch: Ch): Result<Registration<Ch>, Failure> {
    if sh.closed then Err(ErrClosed)
    else if sh.conn.None? then Err(ErrDisconnected)
    else
      var id := Inc64(sh.nextID);
      Ok(Registration(sh.(nextID := id, pending := sh.pending[id := ch]), id, sh.conn.value))
  }

  function Remove<Ch>(sh: Shared<Ch>, id: nat): Shared<Ch> {
    sh.(pending := sh.pending - {id})
  }

  /** deliverResponse: the reader is stale, the id is unknown, or the channel leaves the table. */
  datatype Taken<Ch> = Stale | Unknown | Found(sh: Shared<Ch>, ch: Ch)

  function Take<Ch>(sh: Shared<Ch>, sid: nat, id: nat): Taken<Ch> {
    if !Current(sh, sid) then Stale
    else if id !in sh.pending then Unknown
    else Found(Remove(sh, id), sh.pending[id])
  }

  /** handleSessionEnd; None when the session is no longer current. */
  function End<Ch>(sh: Shared<Ch>, sid: nat): Option<Shared<Ch>> {
    if !Current(sh, sid) then None
    else Some(sh.(conn := None, pending := map[], cancel := None))
  }

  /** Close; None when already closed. The stored cancel function stays in place. */
  function Shut<Ch>(sh: Shared<Ch>): Option<Shared<Ch>> {
    if sh.closed then None
    else Some(sh.(closed := true, conn := None, pending := map[]))
  }

  /** The second critical section of Reconnect: swap, flush, restart ids, bump the session. */
  function Swap<Ch>(sh: Shared<Ch>, conn: Conn): Option<Shared<Ch>> {
    if sh.closed then None
    else
      var sid := Inc64(sh.sessionID);
      Some(sh.(conn := Some(conn), nextID := 0, pending := map[], sessionID := sid, cancel := Some(sid)))
  }

  /** The connection `send` writes a reply of session `sid` to. */
  function ReplyConn<Ch>(sh: Shared<Ch>, sid: nat): Result<Conn, Failure> {
    if sh.closed then Err(ErrClosed)
    else if sh.sessionID != sid then Err(ErrDisconnected)
    else if sh.conn.None? then Err(ErrDisconnected)
    else Ok(sh.conn.value)
  }

  /** A channel of capacity one. */
  class ReplyChan {
    var buf: Option<CallResult>

    constructor ()
      ensures buf == None
    {
      buf := None;
    }

    /** A send inside `select { case ch <- v: default: }`. */
    method TrySend(v: CallResult) returns (sent: bool)
      modifies this
      ensures sent == old(buf).None?
      ensures buf == if sent then Some(v) else old(buf)
    {
      sent := buf.None?;
      if sent { buf := Some(v); }
    }
  }

  /** The send loop of Close, Reconnect and handleSessionEnd over a detached table. */
  method Flush(pending: map<nat, ReplyChan>, err: Failure)
    requires forall id :: id in pending ==> pending[id].buf.None?
    requires forall i, j :: i in pending && j in pending && i != j ==> pending[i] != pending[j]
    modifies pending.Values
    ensures forall id :: id in pending ==> pending[id].buf == Some(Failed(err))
  {
    var todo := pending.Keys;
    while todo != {}
      invariant todo <= pending.Keys
      invariant forall id :: id in pending ==> pending[id].buf == if id in todo then None else Some(Failed(err))
      decreases todo
    {
      var id :| id in todo;
      var sent := pending[id].TrySend(Failed(err));
      assert sent;
      todo := todo - {id};
    }
  }

  class JSONRPCTransport {
    var conn: Option<Conn>
    const hasOpener: bool
    var closed: bool
    var sessionID: nat
    var nextID: nat
    var pending: map<nat, ReplyChan>
    var cancel: Option<nat>
    var cancelled: set<nat>
    var done: bool
    var wire: seq<(Conn, string)>

    function View(): Shared<ReplyChan>
      reads this
    {
      Shared(conn, closed, sessionID, nextID, pending, cancel)
    }

    /** What every critical section keeps: table entries are empty channels of distinct calls. */
    ghost predicate Valid()
      reads this, pending.Values
    {
      && nextID < WORD
      && (forall id :: id in pending ==> pending[id].buf.None?)
      && (forall i, j :: i in pending && j in pending && i != j ==> pending[i] != pending[j])
      && (closed || conn.None? ==> pending == map[])
      && (closed ==> conn.None?)
    }

    /** Until the id counter wraps, the next id is larger than every pending one. */
    ghost predicate Numbered()
      reads this
    {
      forall id :: id in pending ==> 1 <= id <= nextID
    }

    constructor (c: Option<Conn>, opener: bool)
      ensures Valid() && View() == Opened(c) && hasOpener == opener
      ensures conn == c && !closed && nextID == 0 && pending == map[] && !done && wire == []
      ensures sessionID == (if c.Some? then 1 else 0) && cancel == Some(sessionID)
      ensures cancelled == if c.Some? then {0} else {}
    {
      conn, hasOpener, closed, nextID, pending, done, wire := c, opener, false, 0, map[], false, [];
      sessionID, cancel, cancelled := 0, Some(0), {};
      new;
      if conn.Some? {
        sessionID, cancel, cancelled := 1, Some(1), {0};
      }
    }

    /** Lines 255-269 of Call. The entry overwrites no other unless the id counter wraps. */
    method RegisterCall() returns (r: Result<Registration<ReplyChan>, Failure>, ch: ReplyChan)
      requires Valid()
      modifies this
      ensures Valid() && fresh(ch)
      ensures r == Register(old(View()), ch)
      ensures View() == if r.Ok? then r.value.sh else old(View())
      ensures closed ==> r == Err(ErrClosed)
      ensures !closed && conn.None? ==> r == Err(ErrDisconnected)
      ensures !closed && conn.Some? ==>
                && r.Ok? && r.value.conn == conn.value && r.value.id == nextID
                && nextID == (old(nextID) + 1) % 0x1_0000_0000_0000_0000 && pending == old(pending)[nextID := ch]
      ensures r.Err? ==> nextID == old(nextID) && pending == old(pending)
      ensures conn == old(conn) && closed == old(closed) && sessionID == old(sessionID) && cancel == old(cancel)
      ensures cancelled == old(cancelled) && done == old(done) && wire == old(wire)
      ensures r.Ok? && old(Numbered()) && old(nextID) + 1 < WORD ==> Numbered() && r.value.id !in old(pending)
    {
      ch := new ReplyChan();
      if closed { return Err(ErrClosed), ch; }
      if conn.None? { return Err(ErrDisconnected), ch; }
      nextID := Inc64(nextID);
      pending := pending[nextID := ch];
      r := Ok(Registration(View(), nextID, conn.value));
    }

    method RemovePending(id: nat)
      requires Valid()
      modifies this`pending
      ensures Valid() && View() == Remove(old(View()), id)
      ensures pending == old(pending) - {id}
    {
      pending := pending - {id};
    }

    method DeliverResponse(sid: nat, id: nat, res: CallResult) returns (alive: bool)
      requires Valid()
      modifies this`pending, if id in pending then {pending[id]} else {}
      ensures Valid()
      ensures alive == Current(old(View()), sid)
      ensures match Take(old(View()), sid, id)
              case Stale => View() == old(View()) && (id in pending ==> pending[id].buf == None)
              case Unknown => View() == old(View())
              case Found(sh, ch) => View() == sh && ch.buf == Some(res)
      ensures alive <==> !closed && sessionID == sid
      ensures alive && id in old(pending) ==> pending == old(pending) - {id} && old(pending)[id].buf == Some(res)
      ensures !alive || id !in old(pending) ==> pending == old(pending)
      ensures !alive && id in old(pending) ==> old(pending)[id].buf == old(pending[id].buf)
    {
      if closed || sessionID != sid { return false; }
      if id in pending {
        var ch := pending[id];
        pending := pending - {id};
        var sent := ch.TrySend(res);
        assert sent;
      }
      return true;
    }

    method HandleSessionEnd(sid: nat)
      requires Valid()
      modifies this, pending.Values
      ensures Valid()
      ensures closed == old(closed) && sessionID == old(sessionID) && nextID == old(nextID)
      ensures !closed && sessionID == sid ==>
                && conn == None && pending == map[] && cancel == None
                && (forall id :: id in old(pending) ==> old(pending)[id].buf == Some(Failed(ErrDisconnected)))
                && cancelled == old(cancelled) + if old(cancel).Some? then {old(cancel).value} else {}
      ensures closed || sessionID != sid ==>
                && conn == old(conn) && pending == old(pending) && cancel == old(cancel) && cancelled == old(cancelled)
                && forall id :: id in pending ==> pending[id].buf == old(pending[id].buf)
      ensures match End(old(View()), sid)
              case None => View() == old(View()) && cancelled == old(cancelled)
              case Some(sh) =>
                View() == sh
                && (forall id :: id in old(pending) ==> old(pending)[id].buf == Some(Failed(ErrDisconnected)))
                && cancelled == old(cancelled) + Contexts(old(cancel))
      ensures done == old(done) && wire == old(wire)
    {
      if closed || sessionID != sid { return; }
      conn := None;
      var flushed := pending;
      pending := map[];
      var c := cancel;
      cancel := None;
      cancelled := cancelled + Contexts(c);
      Flush(flushed, ErrDisconnected);
    }

    method Close()
      requires Valid()
      modifies this, pending.Values
      ensures Valid()
      ensures closed && sessionID == old(sessionID) && nextID == old(nextID) && cancel == old(cancel)
      ensures !old(closed) ==>
                && conn == None && pending == map[] && done
                && (forall id :: id in old(pending) ==> old(pending)[id].buf == Some(Failed(ErrClosed)))
                && cancelled == old(cancelled) + if cancel.Some? then {cancel.value} else {}
      ensures old(closed) ==>
                conn == old(conn) && pending == old(pending) && done == old(done) && cancelled == old(cancelled)
      ensures match Shut(old(View()))
              case None => View() == old(View()) && done == old(done) && cancelled == old(cancelled)
              case Some(sh) =>
                View() == sh && done
                && (forall id :: id in old(pending) ==> old(pending)[id].buf == Some(Failed(ErrClosed)))
                && cancelled == old(cancelled) + Contexts(old(cancel))
      ensures wire == old(wire)
    {
      if closed { return; }
      closed, conn := true, None;
      var flushed := pending;
      pending := map[];
      cancelled := cancelled + Contexts(cancel);
      Flush(flushed, ErrClosed);
      done := true;
    }

    /** Reconnect with the opener's outcome as a parameter (None is an opener error). */
    method Reconnect(stream: Option<Conn>) returns (err: Option<Failure>)
      requires Valid()
      modifies this, pending.Values
      ensures Valid()
      ensures if closed then err == Some(ErrClosed)
              else if !hasOpener then err == Some(ErrReconnectUnsupported)
              else err == if stream.None? then Some(ErrOpen) else None
      ensures closed == old(closed)
      ensures err == None ==>
                && conn == stream && nextID == 0 && pending == map[]
                && sessionID == (old(sessionID) + 1) % 0x1_0000_0000_0000_0000 && cancel == Some(sessionID)
                && (forall id :: id in old(pending) ==> old(pending)[id].buf == Some(Failed(ErrDisconnected)))
                && cancelled == old(cancelled) + if old(cancel).Some? then {old(cancel).value} else {}
      ensures err != None ==>
                && conn == old(conn) && nextID == old(nextID) && pending == old(pending)
                && sessionID == old(sessionID) && cancel == old(cancel) && cancelled == old(cancelled)
                && forall id :: id in pending ==> pending[id].buf == old(pending[id].buf)
      ensures match if hasOpener && stream.Some? then Swap(old(View()), stream.value) else None
              case None => View() == old(View()) && cancelled == old(cancelled)
              case Some(sh) =>
                View() == sh
                && (forall id :: id in old(pending) ==> old(pending)[id].buf == Some(Failed(ErrDisconnected)))
                && cancelled == old(cancelled) + Contexts(old(cancel))
      ensures done == old(done) && wire == old(wire)
    {
      if closed { return Some(ErrClosed); }
      if !hasOpener { return Some(ErrReconnectUnsupported); }
      if stream.None? { return Some(ErrOpen); }
      conn, nextID := stream, 0;
      var flushed := pending;
      pending := map[];
      var oldCancel := cancel;
      sessionID := Inc64(sessionID);
      cancel := Some(sessionID);
      cancelled := cancelled + Contexts(oldCancel);
      Flush(flushed, ErrDisconnected);
      return None;
    }
  }

  /** What a bridged transport is given to send. */
  datatype ReplyResult = GoodReply(result: string) | ErrorReply(code: int, message: string, data: string)

  /** replyCh, of capacity one. */
  class ReplyBridge {
    var buf: Option<ReplyResult>

    constructor ()
      ensures buf == None
    {
      buf := None;
    }
  }

  /** An inbound server request; transports that answer through a channel set `replyCh` and no transport. */
  class Request {
    const transport: JSONRPCTransport?
    const replyCh: ReplyBridge?
    const session: nat
    const id: string
    var replied: bool

    ghost predicate Valid()
      reads this, replyCh
    {
      replyCh != null && !replied ==> replyCh.buf.None?
    }

    constructor (t: JSONRPCTransport?, ch: ReplyBridge?, sid: nat, rid: string)
      requires ch != null ==> ch.buf.None?
      ensures transport == t && replyCh == ch && session == sid && id == rid && !replied && Valid()
    {
      transport, replyCh, session, id, replied := t, ch, sid, rid, false;
    }

    /** The request's own session is the current one, and connected. */
    predicate CanReply()
      requires transport != null
      reads transport
    {
      !transport.closed && transport.sessionID == session && transport.conn.Some?
    }

    /** One envelope with the request's id went out on the transport's connection, or failed to. */
    twostate predicate Wrote(writes: bool, new err: Option<Failure>)
      requires transport != null
      reads transport
    {
      && transport.conn.Some? && transport.wire == old(transport.wire) + [(transport.conn.value, id)]
      && err == if writes then None else Some(ErrWrite)
    }

    /** What `send` returns for this request, and the one envelope it may write. */
    twostate predicate Sent(canceled: bool, writes: bool, new err: Option<Failure>)
      requires transport != null
      reads transport
    {
      var target := old(ReplyConn(transport.View(), session));
      if canceled || target.Err? then
        transport.wire == old(transport.wire) && err == Some(if canceled then ErrContext else target.error)
      else
        transport.wire == old(transport.wire) + [(target.value, id)] && err == if writes then None else Some(ErrWrite)
    }

    /** JSONRPCTransport.send; `canceled` is the caller's context, `writes` whether the stream accepts the bytes. */
    method Send(canceled: bool, writes: bool) returns (err: Option<Failure>)
      requires transport != null
      modifies transport`wire
      ensures Sent(canceled, writes, err)
      ensures canceled ==> err == Some(ErrContext)
      ensures !canceled && transport.closed ==> err == Some(ErrClosed)
      ensures !canceled && !transport.closed && (transport.sessionID != session || transport.conn.None?) ==>
                err == Some(ErrDisconnected)
      ensures if !canceled && CanReply() then Wrote(writes, err) else transport.wire == old(transport.wire)
    {
      if canceled { return Some(ErrContext); }
      if transport.closed { return Some(ErrClosed); }
      if transport.sessionID != session { return Some(ErrDisconnected); }
      if transport.conn.None? { return Some(ErrDisconnected); }
      transport.wire := transport.wire + [(transport.conn.value, id)];
      return if writes then None else Some(ErrWrite);
    }

    method Reply(result: string, canceled: bool, writes: bool) returns (err: Option<Failure>)
      requires Valid()
      modifies this`replied, replyCh, (if transport != null then {transport} else {})`wire
      ensures Valid() && replied
      ensures replyCh != null ==> replyCh.buf == if old(replied) then old(replyCh.buf) else Some(GoodReply(result))
      ensures transport != null && (old(replied) || replyCh != null) ==> transport.wire == old(transport.wire)
      ensures if old(replied) then err == Some(ErrAlreadyReplied)
              else if replyCh != null then err == None
              else if transport == null then err == Some(ErrClosed)
              else Sent(canceled, writes, err)
      ensures !old(replied) && replyCh == null && transport != null && !canceled && CanReply() ==> Wrote(writes, err)
    {
      if replied { return Some(ErrAlreadyReplied); }
      replied := true;
      if replyCh != null {
        replyCh.buf := Some(GoodReply(result));
        return None;
      }
      if transport == null { return Some(ErrClosed); }
      err := Send(canceled, writes);
    }

    /** ReplyError; `marshals` is whether the error data, if any, can be encoded. */
    method ReplyError(code: int, message: string, data: string, marshals: bool, canceled: bool, writes: bool)
        returns (err: Option<Failure>)
      requires Valid()
      modifies this`replied, replyCh, (if transport != null then {transport} else {})`wire
      ensures Valid() && replied
      ensures replyCh != null ==>
          replyCh.buf == if old(replied) then old(replyCh.buf) else Some(ErrorReply(code, message, data))
      ensures transport != null && (old(replied) || replyCh != null || !marshals) ==>
          transport.wire == old(transport.wire)
      ensures if old(replied) then err == Some(ErrAlreadyReplied)
              else if replyCh != null then err == None
              else if transport == null then err == Some(ErrClosed)
              else if !marshals then err == Some(ErrMarshal)
              else Sent(canceled, writes, err)
      ensures !old(replied) && replyCh == null && transport != null && marshals && !canceled && CanReply() ==>
                Wrote(writes, err)
    {
      if replied { return Some(ErrAlreadyReplied); }
      replied := true;
      if replyCh != null {
        replyCh.buf := Some(ErrorReply(code, message, data));
        return None;
      }
      if transport == null { return Some(ErrClosed); }
      if !marshals { return Some(ErrMarshal); }
      err := Send(canceled, writes);
    }
  }
}
