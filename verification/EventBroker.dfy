/**
 The fan-out of bounded queues in events.go, and the append-only log it refines.

 `Broker` is the value of the eventBroker fields plus every channel it ever made; class
 `EventBroker` performs the same operations in place. `read` and `from` record, per channel, what
 its consumer has received and where in the log of published events it was subscribed.
 */
module EventBrokers {
  import opened Wrappers

  const CAPACITY: nat := 128

  datatype Event = Event(name: string, scope: Scope)

  /** How an event names its thread and turn; see eventMatchesTurn. */
  datatype Scope =
    | OfTurn(threadID: string, turnID: string)
    | CarriesTurn(threadID: string, turnID: string, turn: Option<string>)
    | OfThread(threadID: string)
    | Raw(threadID: string, turnID: string)
    | Unscoped

  /** One buffered channel, with its subscription point and its consumer's history. */
  datatype Queue = Queue(buf: seq<Event>, open: bool, from: nat, read: seq<Event>)

  /** `subs` maps subscription ids to channel handles, indices into `queues`. */
  datatype Broker = Broker(nextID: nat, subs: map<nat, nat>, closed: bool, queues: seq<Queue>, log: seq<Event>)

  const EMPTY := Broker(0, map[], false, [], [])

  /** What a subscription can cancel: nothing when the broker was already closed. */
  function AfterSubscribe(b: Broker): (Broker, Option<nat>) {
    var h := |b.queues|;
    if b.closed then
      (b.(queues := b.queues + [Queue([], false, |b.log|, [])]), None)
    else
      var id := b.nextID + 1;
      (b.(nextID := id, subs := b.subs[id := h], queues := b.queues + [Queue([], true, |b.log|, [])]), Some(id))
  }

  /** One subscriber's turn in the publish loop: a full buffer closes the channel. */
  function Accept(q: Queue, e: Event): Queue {
    if |q.buf| < CAPACITY then q.(buf := q.buf + [e]) else q.(open := false)
  }

  predicate Subscribed(b: Broker, h: nat) {
    h in b.subs.Values
  }

  predicate HasRoom(b: Broker, h: nat) {
    h < |b.queues| && |b.queues[h].buf| < CAPACITY
  }

  /** The channels of these subscriptions. */
  function Handles(b: Broker, ids: set<nat>): set<nat> {
    set id | id in ids && id in b.subs :: b.subs[id]
  }

  /** The publish loop after it has been through `ids`. */
  function SentTo(b: Broker, e: Event, ids: set<nat>): Broker {
    b.(subs := map id | id in b.subs && (id in ids ==> HasRoom(b, b.subs[id])) :: b.subs[id],
       queues := seq(|b.queues|, h requires 0 <= h < |b.queues| =>
         if h in Handles(b, ids) then Accept(b.queues[h], e) else b.queues[h]))
  }

  function AfterPublish(b: Broker, e: Event): Broker {
    if b.closed then b else SentTo(b, e, b.subs.Keys).(log := b.log + [e])
  }

  /** The close loop after it has been through `ids`. */
  function ClosedFor(b: Broker, ids: set<nat>): Broker {
    b.(closed := true, subs := b.subs - ids,
       queues := seq(|b.queues|, h requires 0 <= h < |b.queues| =>
         if h in Handles(b, ids) then b.queues[h].(open := false) else b.queues[h]))
  }

  function AfterClose(b: Broker): Broker {
    if b.closed then b else ClosedFor(b, b.subs.Keys)
  }

  function AfterUnsubscribe(b: Broker, id: nat): Broker {
    if id !in b.subs || b.subs[id] >= |b.queues| then b
    else b.(subs := b.subs - {id}, queues := b.queues[b.subs[id] := b.queues[b.subs[id]].(open := false)])
  }

  /** A consumer receives; a closed channel still yields what is buffered. */
  function AfterRead(b: Broker, h: nat): Option<Broker> {
    if h < |b.queues| && b.queues[h].buf != [] then
      var q := b.queues[h];
      Some(b.(queues := b.queues[h := q.(buf := q.buf[1..], read := q.read + [q.buf[0]])]))
    else None
  }

  // ----- What the operations do, said outright -----

  /** A new subscriber gets everything from now on, unless the broker is closed. */
  ghost predicate Joined(b: Broker, b': Broker, id: Option<nat>) {
    && b'.closed == b.closed && b'.log == b.log && id == (if b.closed then None else Some(b.nextID + 1))
    && b'.queues == b.queues + [Queue([], !b.closed, |b.log|, [])]
    && b'.nextID == (if b.closed then b.nextID else b.nextID + 1)
    && b'.subs == if b.closed then b.subs else b.subs[b.nextID + 1 := |b.queues|]
  }

  /** The handle of a subscriber, and whether its buffer takes another event. */
  ghost predicate Takes(b: Broker, id: nat) {
    id in b.subs && b.subs[id] < |b.queues| && |b.queues[b.subs[id]].buf| < 128
  }

  /**
   Every subscriber with room gets the event and stays; every other one is closed and dropped; nobody
   else changes.
   */
  ghost predicate Published(b: Broker, e: Event, b': Broker) {
    && b'.closed == b.closed && b'.nextID == b.nextID && |b'.queues| == |b.queues|
    && b'.log == (if b.closed then b.log else b.log + [e])
    && (b.closed ==> b'.subs == b.subs)
    && (!b.closed ==> forall id :: (id in b'.subs <==> Takes(b, id)) && (id in b'.subs ==> b'.subs[id] == b.subs[id]))
    && (forall id :: !b.closed && Takes(b, id) ==>
          b'.queues[b.subs[id]] == b.queues[b.subs[id]].(buf := b.queues[b.subs[id]].buf + [e]))
    && (forall id :: !b.closed && id in b.subs && b.subs[id] < |b.queues| && !Takes(b, id) ==>
          b'.queues[b.subs[id]] == b.queues[b.subs[id]].(open := false))
    && (forall h :: 0 <= h < |b.queues| && (b.closed || !Subscribed(b, h)) ==> b'.queues[h] == b.queues[h])
  }

  /** Every subscriber is closed with what it has buffered, and none is left. */
  ghost predicate ShutDown(b: Broker, b': Broker) {
    && b'.closed && b'.nextID == b.nextID && b'.log == b.log && |b'.queues| == |b.queues|
    && b'.subs == (if b.closed then b.subs else map[])
    && forall h :: 0 <= h < |b.queues| ==>
         b'.queues[h] == if !b.closed && Subscribed(b, h) then b.queues[h].(open := false) else b.queues[h]
  }

  /** The subscriber with this id, if there is one, is closed with what it has buffered and dropped. */
  ghost predicate Left(b: Broker, id: nat, b': Broker) {
    && b'.closed == b.closed && b'.nextID == b.nextID && b'.log == b.log && |b'.queues| == |b.queues|
    && b'.subs == b.subs - {id}
    && forall h :: 0 <= h < |b.queues| ==>
         b'.queues[h] == if id in b.subs && b.subs[id] == h then b.queues[h].(open := false) else b.queues[h]
  }

  /** The consumer of a queue takes its oldest event. */
  ghost predicate Consumed(b: Broker, h: nat, b': Broker) {
    && h < |b.queues| && b.queues[h].buf != []
    && b' == b.(queues := b.queues[h := b.queues[h].(buf := b.queues[h].buf[1..],
                                                     read := b.queues[h].read + [b.queues[h].buf[0]])])
  }

  lemma SubscribeEffect(b: Broker)
    ensures Joined(b, AfterSubscribe(b).0, AfterSubscribe(b).1)
  {
  }

  lemma PublishEffect(b: Broker, e: Event)
    requires Valid(b)
    ensures Published(b, e, AfterPublish(b, e))
  {
    if !b.closed {
      var b' := AfterPublish(b, e);
      forall id | id in b.subs
        ensures b.subs[id] in Handles(b, b.subs.Keys) && (id in b'.subs <==> Takes(b, id))
      {
      }
      assert forall h :: h in Handles(b, b.subs.Keys) <==> h in b.subs.Values;
    }
  }

  lemma CloseEffect(b: Broker)
    requires Valid(b)
    ensures ShutDown(b, AfterClose(b))
  {
    assert forall h :: h in Handles(b, b.subs.Keys) <==> h in b.subs.Values;
  }

  lemma UnsubscribeEffect(b: Broker, id: nat)
    requires Valid(b)
    ensures Left(b, id, AfterUnsubscribe(b, id))
  {
  }

  lemma ReadEffect(b: Broker, h: nat)
    ensures AfterRead(b, h).Some? <==> h < |b.queues| && b.queues[h].buf != []
    ensures AfterRead(b, h).Some? ==> Consumed(b, h, AfterRead(b, h).value)
  {
  }

  // ----- Invariants -----

  /** A channel is open exactly when it is in `subs`, under one id in 1..nextID; buffers are bounded. */
  ghost predicate Valid(b: Broker) {
    && (forall id :: id in b.subs ==> 1 <= id <= b.nextID && b.subs[id] < |b.queues|)
    && (forall i, j :: i in b.subs && j in b.subs && b.subs[i] == b.subs[j] ==> i == j)
    && (forall h :: 0 <= h < |b.queues| ==> (b.queues[h].open <==> Subscribed(b, h)) && |b.queues[h].buf| <= CAPACITY)
    && (b.closed ==> b.subs == map[])
  }

  /** Received plus buffered is a gap-free piece of the log, up to now while subscribed. */
  ghost predicate Follows(b: Broker, q: Queue) {
    && q.from + |q.read| + |q.buf| <= |b.log|
    && q.read + q.buf == b.log[q.from..q.from + |q.read| + |q.buf|]
    && (q.open ==> q.from + |q.read| + |q.buf| == |b.log|)
  }

  ghost predicate RefinesLog(b: Broker) {
    forall h :: 0 <= h < |b.queues| ==> Follows(b, b.queues[h])
  }

  ghost predicate Inv(b: Broker) {
    Valid(b) && RefinesLog(b)
  }

  lemma SubscribeKeeps(b: Broker)
    requires Inv(b)
    ensures Inv(AfterSubscribe(b).0)
  {
    var b' := AfterSubscribe(b).0;
    var n := |b.queues|;
    forall h | 0 <= h < |b'.queues| ensures b'.queues[h].open <==> Subscribed(b', h) {
      if h < n {
        assert b'.queues[h] == b.queues[h];
        if Subscribed(b, h) {
          var id :| id in b.subs && b.subs[id] == h;
          assert b'.subs[id] == h;
        }
      } else if !b.closed {
        assert b'.subs[b.nextID + 1] == n;
      }
    }
  }

  lemma HandlesOfAll(b: Broker)
    ensures Handles(b, b.subs.Keys) == b.subs.Values
  {
    forall h | h in b.subs.Values ensures h in Handles(b, b.subs.Keys) {
      var id :| id in b.subs && b.subs[id] == h;
    }
  }

  lemma PublishKeepsValid(b: Broker, e: Event)
    requires Valid(b) && !b.closed
    ensures Valid(AfterPublish(b, e))
  {
    var b' := AfterPublish(b, e);
    HandlesOfAll(b);
    forall h | 0 <= h < |b.queues| ensures b'.queues[h].open <==> Subscribed(b', h) {
      if Subscribed(b, h) {
        var id :| id in b.subs && b.subs[id] == h;
        assert |b.queues[h].buf| < CAPACITY ==> id in b'.subs && b'.subs[id] == h;
      }
    }
  }

  lemma AcceptFollows(b: Broker, q: Queue, e: Event, b': Broker)
    requires Follows(b, q) && b'.log == b.log + [e]
    ensures Follows(b', if q.open then Accept(q, e) else q)
  {
    assert q.open && |q.buf| < CAPACITY ==> q.read + Accept(q, e).buf == (q.read + q.buf) + [e];
  }

  lemma PublishKeeps(b: Broker, e: Event)
    requires Inv(b)
    ensures Inv(AfterPublish(b, e))
  {
    var b' := AfterPublish(b, e);
    if !b.closed {
      PublishKeepsValid(b, e);
      HandlesOfAll(b);
      forall h | 0 <= h < |b.queues| ensures Follows(b', b'.queues[h]) {
        assert Follows(b, b.queues[h]) && (b.queues[h].open <==> Subscribed(b, h));
        hide Follows, Valid, RefinesLog;
        AcceptFollows(b, b.queues[h], e, b');
      }
    }
  }

  /** One iteration: only the channel of `id` changes, and `id` stays subscribed if it had room. */
  lemma SendOne(b: Broker, e: Event, ids: set<nat>, id: nat)
    requires Valid(b) && id in b.subs && id !in ids
    ensures var h, p, p' := b.subs[id], SentTo(b, e, ids), SentTo(b, e, ids + {id});
            && id in p.subs && p.subs[id] == h && p.queues[h] == b.queues[h]
            && p'.queues == p.queues[h := Accept(b.queues[h], e)]
            && p'.subs == if HasRoom(b, h) then p.subs else p.subs - {id}
  {
    assert Handles(b, ids + {id}) == Handles(b, ids) + {b.subs[id]};
    assert b.subs[id] !in Handles(b, ids);
  }

  lemma CloseOne(b: Broker, ids: set<nat>, id: nat)
    requires Valid(b) && id in b.subs && id !in ids
    ensures var h, p, p' := b.subs[id], ClosedFor(b, ids), ClosedFor(b, ids + {id});
            && id in p.subs && p.subs[id] == h && p.queues[h] == b.queues[h]
            && p'.queues == p.queues[h := b.queues[h].(open := false)]
            && p'.subs == p.subs - {id}
  {
    assert Handles(b, ids + {id}) == Handles(b, ids) + {b.subs[id]};
    assert b.subs[id] !in Handles(b, ids);
  }

  lemma UnsubscribeKeeps(b: Broker, id: nat)
    requires Inv(b)
    ensures Inv(AfterUnsubscribe(b, id))
  {
    var b' := AfterUnsubscribe(b, id);
    forall h | 0 <= h < |b.queues| && id in b.subs ensures b'.queues[h].open <==> Subscribed(b', h) {
      if Subscribed(b, h) && h != b.subs[id] {
        var i :| i in b.subs && b.subs[i] == h;
        assert b'.subs[i] == h;
      }
    }
  }

  lemma CloseKeeps(b: Broker)
    requires Inv(b)
    ensures Inv(AfterClose(b))
  {
    HandlesOfAll(b);
    assert forall h :: 0 <= h < |b.queues| ==> Follows(b, b.queues[h]);
  }

  lemma ReadFollows(b: Broker, q: Queue, b': Broker)
    requires Follows(b, q) && q.buf != [] && b'.log == b.log
    ensures Follows(b', q.(buf := q.buf[1..], read := q.read + [q.buf[0]]))
  {
    assert q.read + [q.buf[0]] + q.buf[1..] == q.read + q.buf;
  }

  lemma ReadKeeps(b: Broker, h: nat)
    requires Inv(b) && AfterRead(b, h).Some?
    ensures Inv(AfterRead(b, h).value)
  {
    var b' := AfterRead(b, h).value;
    ReadFollows(b, b.queues[h], b');
    assert forall k :: Subscribed(b, k) <==> Subscribed(b', k);
    hide Follows;
    assert RefinesLog(b') by {
      forall k | 0 <= k < |b.queues| ensures Follows(b', b'.queues[k]) {
        assert Follows(b, b.queues[k]);
        if k != h { SameLogFollows(b, b.queues[k], b'); }
      }
    }
  }

  lemma SameLogFollows(b: Broker, q: Queue, b': Broker)
    requires Follows(b, q) && b'.log == b.log
    ensures Follows(b', q)
  {
  }

  // ----- Runs -----

  datatype Step = DoSubscribe | DoPublish(e: Event) | DoUnsubscribe(id: nat) | DoClose | DoRead(h: nat)

  function Next(b: Broker, st: Step): Option<Broker> {
    match st
    case DoSubscribe => Some(AfterSubscribe(b).0)
    case DoPublish(e) => Some(AfterPublish(b, e))
    case DoUnsubscribe(id) => Some(AfterUnsubscribe(b, id))
    case DoClose => Some(AfterClose(b))
    case DoRead(h) => AfterRead(b, h)
  }

  lemma StepKeeps(b: Broker, st: Step, b': Broker)
    requires Inv(b) && Next(b, st) == Some(b')
    ensures Inv(b')
  {
    match st
    case DoSubscribe => SubscribeKeeps(b);
    case DoPublish(e) => PublishKeeps(b, e);
    case DoUnsubscribe(id) => UnsubscribeKeeps(b, id);
    case DoClose => CloseKeeps(b);
    case DoRead(h) => ReadKeeps(b, h);
  }

  ghost predicate Run(tr: seq<Broker>, steps: seq<Step>) {
    && |tr| == |steps| + 1
    && tr[0] == EMPTY
    && forall i :: 0 <= i < |steps| ==> Next(tr[i], steps[i]) == Some(tr[i + 1])
  }

  lemma {:induction false} RunInv(tr: seq<Broker>, steps: seq<Step>, i: nat)
    requires Run(tr, steps) && i < |tr|
    ensures Inv(tr[i])
  {
    if i == 0 {
    } else {
      RunInv(tr, steps, i - 1);
      StepKeeps(tr[i - 1], steps[i - 1], tr[i]);
    }
  }

  /**
   For any interleaving: what a subscriber has read plus what it has buffered is the log from its
   subscription to now while it is subscribed, and a gap-free prefix of that segment afterwards.
   */
  lemma RefinesLogInEveryRun(tr: seq<Broker>, steps: seq<Step>, i: nat, h: nat)
    requires Run(tr, steps) && i < |tr| && h < |tr[i].queues|
    ensures var b, q := tr[i], tr[i].queues[h];
            && q.from <= |b.log|
            && q.read + q.buf <= b.log[q.from..]
            && (Subscribed(b, h) ==> q.read + q.buf == b.log[q.from..])
  {
    RunInv(tr, steps, i);
    var b, q := tr[i], tr[i].queues[h];
    assert Follows(b, q);
    assert b.log[q.from..][..|q.read| + |q.buf|] == b.log[q.from..q.from + |q.read| + |q.buf|];
  }

  /** Open means subscribed, under one id; buffers hold at most 128; a closed broker has no subscribers. */
  lemma ChannelSafety(tr: seq<Broker>, steps: seq<Step>, i: nat)
    requires Run(tr, steps) && i < |tr|
    ensures var b := tr[i];
            && (forall h :: 0 <= h < |b.queues| ==>
                (b.queues[h].open <==> h in b.subs.Values) && |b.queues[h].buf| <= 128)
            && (forall k, m :: k in b.subs && m in b.subs && b.subs[k] == b.subs[m] ==> k == m)
            && (b.closed ==> b.subs == map[])
  {
    RunInv(tr, steps, i);
    assert forall h :: 0 <= h < |tr[i].queues| ==> (Subscribed(tr[i], h) <==> h in tr[i].subs.Values);
  }

  lemma StepIsFinal(b: Broker, st: Step, b': Broker, h: nat)
    requires Inv(b) && Next(b, st) == Some(b') && h < |b.queues|
    ensures |b.queues| <= |b'.queues| && b.nextID <= b'.nextID && b.log <= b'.log
    ensures b'.queues[h].from == b.queues[h].from && b.queues[h].read <= b'.queues[h].read
    ensures st != DoRead(h) ==> b'.queues[h].read == b.queues[h].read
    ensures !b.queues[h].open ==>
              !b'.queues[h].open && b'.queues[h].read + b'.queues[h].buf == b.queues[h].read + b.queues[h].buf
  {
    if st.DoRead? && st.h == h {
      var q, q' := b.queues[h], b'.queues[h];
      assert q.buf == [q.buf[0]] + q.buf[1..];
    }
  }

  /** A channel that is closed stays closed and is never sent on again. */
  lemma {:induction false} ClosedIsFinal(tr: seq<Broker>, steps: seq<Step>, i: nat, j: nat, h: nat)
    requires Run(tr, steps) && i <= j < |tr| && h < |tr[i].queues| && !tr[i].queues[h].open
    ensures h < |tr[j].queues| && !tr[j].queues[h].open
    ensures tr[j].queues[h].read + tr[j].queues[h].buf == tr[i].queues[h].read + tr[i].queues[h].buf
    decreases j - i
  {
    if i == j {
    } else {
      ClosedIsFinal(tr, steps, i, j - 1, h);
      RunInv(tr, steps, j - 1);
      StepIsFinal(tr[j - 1], steps[j - 1], tr[j], h);
    }
  }

  lemma StepGrows(b: Broker, st: Step, b': Broker)
    requires Next(b, st) == Some(b')
    ensures b.nextID <= b'.nextID && b.log <= b'.log
  {
  }

  lemma {:induction false} IdsGrow(tr: seq<Broker>, steps: seq<Step>, i: nat, j: nat)
    requires Run(tr, steps) && i <= j < |tr|
    ensures tr[i].nextID <= tr[j].nextID
    decreases j - i
  {
    if i == j {
    } else {
      IdsGrow(tr, steps, i, j - 1);
      StepGrows(tr[j - 1], steps[j - 1], tr[j]);
    }
  }

  /** No two Subscribe calls of a run ever hand out the same id. */
  lemma IdsAreNeverReused(tr: seq<Broker>, steps: seq<Step>, i: nat, j: nat)
    requires Run(tr, steps) && i < j < |steps| && steps[i] == DoSubscribe && steps[j] == DoSubscribe
    requires AfterSubscribe(tr[i]).1.Some? && AfterSubscribe(tr[j]).1.Some?
    ensures AfterSubscribe(tr[i]).1 != AfterSubscribe(tr[j]).1
  {
    assert Next(tr[i], steps[i]) == Some(tr[i + 1]);
    IdsGrow(tr, steps, i + 1, j);
  }

  lemma StepKeepsHandle(b: Broker, st: Step, b': Broker, id: nat)
    requires Next(b, st) == Some(b') && id <= b.nextID && id in b'.subs
    ensures id in b.subs && b'.subs[id] == b.subs[id]
  {
  }

  /**
   An id names one queue for ever: the one its Subscribe made. So closing a subscription, however
   late or often, never touches another subscriber.
   */
  lemma {:induction false} IdNamesOneQueue(tr: seq<Broker>, steps: seq<Step>, i: nat, j: nat, id: nat)
    requires Run(tr, steps) && i < j < |tr| && steps[i] == DoSubscribe && AfterSubscribe(tr[i]).1 == Some(id)
    ensures id in tr[j].subs ==> tr[j].subs[id] == |tr[i].queues|
    ensures id !in tr[j].subs ==> AfterUnsubscribe(tr[j], id) == tr[j]
    ensures forall h :: 0 <= h < |tr[j].queues| && h != |tr[i].queues| ==>
        AfterUnsubscribe(tr[j], id).queues[h] == tr[j].queues[h]
    decreases j
  {
    assert Next(tr[i], steps[i]) == Some(tr[i + 1]);
    if j > i + 1 {
      IdNamesOneQueue(tr, steps, i, j - 1, id);
      IdsGrow(tr, steps, i + 1, j - 1);
      if id in tr[j].subs { StepKeepsHandle(tr[j - 1], steps[j - 1], tr[j], id); }
    }
  }

  /** After an unsubscribe its subscriber's channel is closed for ever, and only what was buffered can still be read. */
  lemma UnsubscribedForGood(tr: seq<Broker>, steps: seq<Step>, i: nat, j: nat, id: nat)
    requires Run(tr, steps) && i < j < |tr| && steps[i] == DoUnsubscribe(id) && id in tr[i].subs
    ensures tr[i].subs[id] < |tr[i].queues| && tr[i].subs[id] < |tr[j].queues|
    ensures var q, q' := tr[i].queues[tr[i].subs[id]], tr[j].queues[tr[i].subs[id]];
            !q'.open && q'.read + q'.buf == q.read + q.buf
  {
    RunInv(tr, steps, i);
    assert Next(tr[i], steps[i]) == Some(tr[i + 1]);
    UnsubscribeEffect(tr[i], id);
    hide Inv, Next;
    ClosedIsFinal(tr, steps, i + 1, j, tr[i].subs[id]);
  }

  /** A publish reaches every subscriber that has room, and a subscriber that has none is closed for ever. */
  lemma PublishReaches(tr: seq<Broker>, steps: seq<Step>, i: nat, e: Event, id: nat)
    requires Run(tr, steps) && i < |steps| && steps[i] == DoPublish(e) && id in tr[i].subs
    ensures tr[i].subs[id] < |tr[i].queues| == |tr[i + 1].queues|
    ensures var q, q' := tr[i].queues[tr[i].subs[id]], tr[i + 1].queues[tr[i].subs[id]];
            if |q.buf| < 128 then q' == q.(buf := q.buf + [e]) && id in tr[i + 1].subs
            else q' == q.(open := false) && id !in tr[i + 1].subs
  {
    RunInv(tr, steps, i);
    assert Next(tr[i], steps[i]) == Some(tr[i + 1]);
    PublishEffect(tr[i], e);
    assert Takes(tr[i], id) <==> |tr[i].queues[tr[i].subs[id]].buf| < 128;
    hide RefinesLog, AfterPublish;
  }

  // ----- The broker in place -----

  class EventBroker {
    var nextID: nat
    var subs: map<nat, nat>
    var closed: bool
    var queues: seq<Queue>
    var log: seq<Event>

    function View(): Broker
      reads this
    {
      Broker(nextID, subs, closed, queues, log)
    }

    constructor ()
      ensures View() == EMPTY
    {
      nextID, subs, closed, queues, log := 0, map[], false, [], [];
    }

    /** close(ch): panics in Go when the channel is already closed. */
    method CloseChannel(h: nat)
      requires h < |queues| && queues[h].open
      modifies this`queues
      ensures queues == old(queues)[h := old(queues)[h].(open := false)]
    {
      queues := queues[h := queues[h].(open := false)];
    }

    /** `select { case ch <- e: default: }`: panics in Go when the channel is closed. */
    method TrySend(h: nat, e: Event) returns (sent: bool)
      requires h < |queues| && queues[h].open
      modifies this`queues
      ensures sent == HasRoom(old(View()), h)
      ensures sent <==> |old(queues)[h].buf| < 128
      ensures sent ==> queues == old(queues)[h := old(queues)[h].(buf := old(queues)[h].buf + [e])]
      ensures queues == if sent then old(queues)[h := Accept(old(queues)[h], e)] else old(queues)
    {
      sent := |queues[h].buf| < CAPACITY;
      if sent { queues := queues[h := queues[h].(buf := queues[h].buf + [e])]; }
    }

    method Subscribe() returns (h: nat, id: Option<nat>)
      requires Inv(View())
      modifies this
      ensures Inv(View())
      ensures (View(), id) == AfterSubscribe(old(View())) && Joined(old(View()), View(), id)
      ensures h == |old(queues)| && h < |queues| && queues[h].from == |log| && queues[h].open == !closed
    {
      ghost var b := View();
      SubscribeKeeps(b);
      SubscribeEffect(b);
      h := |queues|;
      if closed {
        queues := queues + [Queue([], false, |log|, [])];
        return h, None;
      }
      nextID := nextID + 1;
      subs := subs[nextID := h];
      queues := queues + [Queue([], true, |log|, [])];
      return h, Some(nextID);
    }

    /** The body of the publish loop. */
    method SendOrDrop(id: nat, e: Event)
      requires id in subs && subs[id] < |queues| && queues[subs[id]].open
      modifies this`subs, this`queues
      ensures var h := old(subs)[id];
              && queues == old(queues)[h := Accept(old(queues)[h], e)]
              && subs == if HasRoom(old(View()), h) then old(subs) else old(subs) - {id}
    {
      var h := subs[id];
      var sent := TrySend(h, e);
      if !sent {
        CloseChannel(h);
        subs := subs - {id};
      }
    }

    /** The loop of publish over the subscribers, in any order. */
    method SendToAll(e: Event)
      requires Inv(View()) && !closed
      modifies this`subs, this`queues
      ensures View() == SentTo(old(View()), e, old(subs).Keys)
    {
      hide RefinesLog;
      ghost var b := View();
      ghost var sent: set<nat> := {};
      var todo := subs.Keys;
      assert SentTo(b, e, {}) == b;
      while todo != {}
        invariant sent !! todo && sent + todo == b.subs.Keys
        invariant View() == SentTo(b, e, sent)
        decreases todo
      {
        var id :| id in todo;
        SendOne(b, e, sent, id);
        assert Subscribed(b, b.subs[id]);
        SendOrDrop(id, e);
        sent := sent + {id};
        todo := todo - {id};
      }
    }

    method Publish(e: Event)
      requires Inv(View())
      modifies this
      ensures Inv(View()) && View() == AfterPublish(old(View()), e) && Published(old(View()), e, View())
    {
      ghost var b := View();
      PublishEffect(b, e);
      PublishKeeps(b, e);
      hide Inv, Published, SentTo;
      if closed { return; }
      SendToAll(e);
      log := log + [e];
    }

    /** close from where the broker is known to be open: mark it, then close every channel, in any order. */
    method CloseAll()
      requires Inv(View()) && !closed
      modifies this`closed, this`subs, this`queues
      ensures View() == ClosedFor(old(View()), old(subs).Keys)
    {
      hide RefinesLog;
      ghost var b := View();
      ghost var shut: set<nat> := {};
      closed := true;
      var todo := subs.Keys;
      assert ClosedFor(b, {}).queues == b.queues;
      while todo != {}
        invariant shut !! todo && shut + todo == b.subs.Keys
        invariant View() == ClosedFor(b, shut)
        decreases todo
      {
        var id :| id in todo;
        CloseOne(b, shut, id);
        assert Subscribed(b, b.subs[id]);
        CloseChannel(subs[id]);
        subs := subs - {id};
        shut := shut + {id};
        todo := todo - {id};
      }
    }

    method Close()
      requires Inv(View())
      modifies this
      ensures Inv(View()) && View() == AfterClose(old(View())) && ShutDown(old(View()), View())
    {
      CloseEffect(View());
      CloseKeeps(View());
      hide Inv, ShutDown, ClosedFor;
      if closed { return; }
      CloseAll();
    }

    method Unsubscribe(id: nat)
      requires Inv(View())
      modifies this
      ensures Inv(View()) && View() == AfterUnsubscribe(old(View()), id) && Left(old(View()), id, View())
      ensures id in old(subs) ==>
                && subs == old(subs) - {id} && old(subs)[id] < |queues|
                && queues == old(queues)[old(subs)[id] := old(queues)[old(subs)[id]].(open := false)]
    {
      UnsubscribeEffect(View(), id);
      UnsubscribeKeeps(View(), id);
      if id !in subs { return; }
      assert Subscribed(View(), subs[id]);
      CloseChannel(subs[id]);
      subs := subs - {id};
    }
  }

  class EventSubscription {
    const broker: EventBroker
    const id: nat
    var cancels: bool

    constructor (b: EventBroker, subID: nat)
      ensures broker == b && id == subID && cancels
    {
      broker, id, cancels := b, subID, true;
    }

    /** Close: unsubscribes the first time and does nothing after that. */
    method Close()
      requires Inv(broker.View())
      modifies this`cancels, broker
      ensures Inv(broker.View()) && !cancels
      ensures if old(cancels) then Left(old(broker.View()), id, broker.View()) else broker.View() == old(broker.View())
      ensures broker.View() == if old(cancels) then AfterUnsubscribe(old(broker.View()), id) else old(broker.View())
    {
      if !cancels { return; }
      broker.Unsubscribe(id);
      cancels := false;
    }
  }
}
