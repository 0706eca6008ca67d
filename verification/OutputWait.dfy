/** waitForTurnOutputSub and retryReadTurnForItems (output.go), on scripts of what they see. */
module OutputWait {
  import opened Wrappers
  import opened Jsonx
  import opened EventBrokers
  import opened TurnEvents
  import opened Collector
  import opened Wait

  /** What captureEvent can be given. */
  type EventCapture = c: Capture | !c.Polled? witness Ignored

  const TURN_STARTED := "turn/started"
  const MESSAGE_DELTA := "item/agentMessage/delta"

  /** An event with the value captureEvent switches on. */
  datatype Notice = Notice(e: Event, capture: EventCapture)

  /**
   What decodeEvent produces: the method decides the type of the value, which decides how the event
   names its turn; parameters that do not decode leave a RawNotificationEvent under the same method.
   */
  predicate FromDecoder(n: Notice) {
    match n.capture
    case TurnDone(done, _) =>
      n.e.name == TURN_COMPLETED && n.e.scope.CarriesTurn? && n.e.scope.turn == if done.Some? then Some(done.value.id)
          else None
    case ItemDone(_) => n.e.name == ITEM_COMPLETED && n.e.scope.OfTurn?
    case Delta(_, _, _) => n.e.name == MESSAGE_DELTA && n.e.scope.OfTurn?
    case _ =>
      && (n.e.name == TURN_COMPLETED || n.e.name == ITEM_COMPLETED || n.e.name == MESSAGE_DELTA ==> n.e.scope.Raw?)
      && (n.e.scope.CarriesTurn? ==> n.e.name == TURN_STARTED)
  }

  type Seen = n: Notice | FromDecoder(n) witness Notice(Event("", Unscoped), Ignored)

  datatype Branch = ContextEnds | BrokerClosed | Gets(seen: Seen) | Ticks

  datatype Turnover = Turnover(first: Reply, branch: Branch, second: Reply)

  /** One attempt of the settle retry: the context ends, or these events are pending and this is read. */
  datatype Attempt = Attempt(cancelled: bool, pending: seq<Seen>, reply: Reply)

  /** The identity of the wait, and what is pending when a terminal turn has been read. */
  datatype Job = Job(threadID: string, turnID: string, pending: seq<Seen>, attempts: seq<Attempt>)

  datatype Ending = Returns(turn: Turn) | Fails(why: WaitError) | Waits

  /** How the wait ends and every capture made, in sequence. */
  datatype Outcome = Outcome(ending: Ending, ops: seq<Capture>)

  predicate ForJob(seen: Seen, job: Job) {
    MatchesTurn(seen.e, job.threadID, job.turnID)
  }

  /** capturePendingEvents. */
  function Drain(ops: seq<Capture>, pending: seq<Seen>, job: Job): seq<Capture> {
    if pending == [] then ops
    else
      var before := Drain(ops, pending[..|pending| - 1], job);
      if ForJob(pending[|pending| - 1], job) then before + [pending[|pending| - 1].capture] else before
  }

  predicate SawNothing(c: Collected) {
    c.items == [] && c.deltas == [] && c.usage.None?
  }

  function Settle(turn: Turn, ops: seq<Capture>, open: bool, job: Job): (o: Outcome)
    ensures o.ending.Returns?
  {
    var drained := if open then Drain(ops + [Polled(turn)], job.pending, job) else ops + [Polled(turn)];
    if turn.status == "completed" && turn.items == [] && SawNothing(Replay(drained)) then
      Retry(turn, drained, job.attempts, 3, open, job)
    else Outcome(Returns(turn), drained)
  }

  /** retryReadTurnForItems; a missing attempt is one during which the context ends. */
  function Retry(best: Turn, ops: seq<Capture>, attempts: seq<Attempt>, left: nat, open: bool, job: Job): (o: Outcome)
    ensures o.ending.Returns?
    decreases left
  {
    if left == 0 || attempts == [] || attempts[0].cancelled then Outcome(Returns(best), ops)
    else
      var drained := if open then Drain(ops, attempts[0].pending, job) else ops;
      if !SawNothing(Replay(drained)) then Outcome(Returns(best), drained)
      else
        match ReadOf(attempts[0].reply, job.turnID)
        case Found(turn) =>
          if turn.items != [] || turn.usage.Some? then Outcome(Returns(turn), drained + [Polled(turn)])
          else Retry(turn, drained + [Polled(turn)], attempts[1..], left - 1, open, job)
        case _ => Retry(best, drained, attempts[1..], left - 1, open, job)
  }

  /** What the turn/completed branch returns: the turn read again, else the event's own. */
  function FinalTurn(seen: Seen, second: Reply, turnID: string): Option<Turn> {
    var read := ReadOf(second, turnID);
    if read.Found? then Some(read.turn)
    else if seen.capture.TurnDone? then seen.capture.done
    else None
  }

  /** The main loop; `open` is false once the subscription has been seen closed. */
  function Loop(script: seq<Turnover>, ops: seq<Capture>, count: nat, open: bool, job: Job): Outcome
    decreases script
  {
    if script == [] then Outcome(Waits, ops)
    else
      match ReadOf(script[0].first, job.turnID)
      case Found(turn) =>
        if IsTerminal(turn.status) then Settle(turn, ops, open, job)
        else Select(script, ops + [Polled(turn)], 0, open, job)
      case NotFound => Select(script, ops, 0, open, job)
      case Transient =>
        if count + 1 >= MAX_TRANSIENT then Outcome(Fails(TransientLimit), ops)
        else Select(script, ops, count + 1, open, job)
      case Fatal => Outcome(Fails(ReadFailed), ops)
  }

  function Select(script: seq<Turnover>, ops: seq<Capture>, count: nat, open: bool, job: Job): Outcome
    requires script != []
    decreases script, 0
  {
    match script[0].branch
    case ContextEnds => Outcome(Fails(ContextEnded), ops)
    case BrokerClosed => Loop(script[1..], ops, count, false, job)
    case Ticks => Loop(script[1..], ops, count, open, job)
    case Gets(seen) =>
      if !open || !ForJob(seen, job) then Loop(script[1..], ops, count, open, job)
      else
        var captured := ops + [seen.capture];
        if seen.e.name != TURN_COMPLETED then Loop(script[1..], captured, count, open, job)
        else
          match FinalTurn(seen, script[0].second, job.turnID)
          case Some(turn) => Outcome(Returns(turn), captured + [Polled(turn)])
          case None => Loop(script[1..], captured, count, open, job)
  }

  function Whole(script: seq<Turnover>, job: Job): Outcome {
    Loop(script, [], 0, true, job)
  }

  // ----- What a returned turn is -----

  ghost predicate Captured(o: Outcome) {
    o.ending.Returns? ==> Polled(o.ending.turn) in o.ops
  }

  lemma {:induction false} DrainKeeps(ops: seq<Capture>, pending: seq<Seen>, job: Job)
    ensures ops <= Drain(ops, pending, job)
  {
    if pending == [] {
    } else {
      DrainKeeps(ops, pending[..|pending| - 1], job);
    }
  }

  lemma {:induction false} RetryCaptures(best: Turn, ops: seq<Capture>, attempts: seq<Attempt>, left: nat, open: bool,
      job: Job)
    requires Polled(best) in ops
    ensures Captured(Retry(best, ops, attempts, left, open, job))
    decreases left
  {
    hide ReadOf, Replay, Drain;
    if !(left == 0 || attempts == [] || attempts[0].cancelled) {
      DrainKeeps(ops, attempts[0].pending, job);
      var drained := if open then Drain(ops, attempts[0].pending, job) else ops;
      assert Polled(best) in drained;
      RetryCaptures(best, drained, attempts[1..], left - 1, open, job);
      if ReadOf(attempts[0].reply, job.turnID).Found? {
        var turn := ReadOf(attempts[0].reply, job.turnID).turn;
        RetryCaptures(turn, drained + [Polled(turn)], attempts[1..], left - 1, open, job);
      }
    }
  }

  lemma SettleCaptures(turn: Turn, ops: seq<Capture>, open: bool, job: Job)
    ensures Captured(Settle(turn, ops, open, job))
  {
    hide Replay, Drain, Retry;
    DrainKeeps(ops + [Polled(turn)], job.pending, job);
    var drained := if open then Drain(ops + [Polled(turn)], job.pending, job) else ops + [Polled(turn)];
    assert (ops + [Polled(turn)])[|ops|] == Polled(turn);
    assert Polled(turn) in drained;
    RetryCaptures(turn, drained, job.attempts, 3, open, job);
  }

  lemma {:induction false} LoopCaptures(script: seq<Turnover>, ops: seq<Capture>, count: nat, open: bool, job: Job)
    ensures Captured(Loop(script, ops, count, open, job))
    decreases script
  {
    hide ReadOf, Settle;
    if script == [] {
    } else {
      var read := ReadOf(script[0].first, job.turnID);
      if read.Found? {
        SettleCaptures(read.turn, ops, open, job);
        SelectCaptures(script, ops + [Polled(read.turn)], 0, open, job);
      }
      SelectCaptures(script, ops, 0, open, job);
      SelectCaptures(script, ops, count + 1, open, job);
    }
  }

  lemma {:induction false} SelectCaptures(script: seq<Turnover>, ops: seq<Capture>, count: nat, open: bool, job: Job)
    requires script != []
    ensures Captured(Select(script, ops, count, open, job))
    decreases script, 0
  {
    hide ReadOf, Loop;
    LoopCaptures(script[1..], ops, count, false, job);
    LoopCaptures(script[1..], ops, count, open, job);
    if script[0].branch.Gets? { LoopCaptures(script[1..], ops + [script[0].branch.seen.capture], count, open, job); }
  }

  lemma {:induction false} PolledIsObserved(ops: seq<Capture>, turn: Turn, item: Item)
    requires Polled(turn) in ops && item in turn.items
    ensures item in Observed(ops)
  {
    var n := |ops| - 1;
    if Polled(turn) in ops[..n] {
      PolledIsObserved(ops[..n], turn, item);
    } else {
      assert ops == ops[..n] + [ops[n]];
    }
  }

  /**
   Whatever turn the wait returns, the collector has captured it: every item of the turn with a
   non-empty id is in the collector, in the version observed last.
   */
  lemma ReturnedItemsAreCollected(script: seq<Turnover>, job: Job, item: Item)
    requires var o := Whole(script, job); o.ending.Returns? && item in o.ending.turn.items && item.id != ""
    ensures var o := Whole(script, job);
            && Latest(Replay(o.ops).items, item.id).Some?
            && Latest(Replay(o.ops).items, item.id) == Latest(Observed(o.ops), item.id)
  {
    var o := Whole(script, job);
    LoopCaptures(script, [], 0, true, job);
    hide Loop, Replay;
    PolledIsObserved(o.ops, o.ending.turn, item);
    MostRecentVersion(o.ops, item.id);
    assert LastAt(Observed(o.ops), item.id) >= 0;
  }

  // ----- When the wait gives up -----

  /** The reads the wait counts: the first of each turn of the loop, not the one a turn/completed event causes. */
  function FirstReads(script: seq<Turnover>, turnID: string): seq<ReadResult> {
    if script == [] then [] else [ReadOf(script[0].first, turnID)] + FirstReads(script[1..], turnID)
  }

  lemma {:induction false} LoopLimit(script: seq<Turnover>, next: Turnover, ops: seq<Capture>, count: nat, open: bool,
                                     job: Job, history: seq<ReadResult>)
    requires Loop(script, ops, count, open, job).ending.Waits? && count == Streak(history) < MAX_TRANSIENT
    ensures Loop(script + [next], ops, count, open, job).ending == Fails(TransientLimit) <==>
            Streak(history + FirstReads(script + [next], job.turnID)) >= MAX_TRANSIENT
    decreases |script|, 1
  {
    hide ReadOf, Settle, Captured;
    var all := script + [next];
    var read := ReadOf(all[0].first, job.turnID);
    var longer := history + [read];
    assert longer[..|history|] == history;
    assert history + FirstReads(all, job.turnID) == longer + FirstReads(all[1..], job.turnID);
    if script == [] {
      assert all[1..] == [] && FirstReads(all[1..], job.turnID) == [] && longer + [] == longer;
      assert forall o, c :: Select(all, o, c, open, job).ending != Fails(TransientLimit);
      assert history + FirstReads(all, job.turnID) == longer;
    } else {
      assert all[1..] == script[1..] + [next];
      if read.Found? {
        SelectLimit(script, next, ops + [Polled(read.turn)], 0, open, job, longer);
      } else {
        SelectLimit(script, next, ops, if read.Transient? then count + 1 else 0, open, job, longer);
      }
    }
  }

  lemma {:induction false} SelectLimit(script: seq<Turnover>, next: Turnover, ops: seq<Capture>, count: nat, open: bool,
                                       job: Job, history: seq<ReadResult>)
    requires script != [] && Select(script, ops, count, open, job).ending.Waits?
        && count == Streak(history) < MAX_TRANSIENT
    ensures Select(script + [next], ops, count, open, job).ending == Fails(TransientLimit) <==>
            Streak(history + FirstReads(script[1..] + [next], job.turnID)) >= MAX_TRANSIENT
    decreases |script|, 0
  {
    hide ReadOf, Loop, MatchesTurn, FinalTurn;
    assert (script + [next])[1..] == script[1..] + [next];
    match script[0].branch
    case ContextEnds =>
    case BrokerClosed => LoopLimit(script[1..], next, ops, count, false, job, history);
    case Ticks => LoopLimit(script[1..], next, ops, count, open, job, history);
    case Gets(seen) =>
      var ops' := if open && ForJob(seen, job) then ops + [seen.capture] else ops;
      LoopLimit(script[1..], next, ops', count, open, job, history);
  }

  /**
   A wait that is still going gives up at its next turn of the loop exactly when that turn's first
   read is the fifth such read in a row to fail transiently.
   */
  lemma GivesUpAfterFive(script: seq<Turnover>, next: Turnover, job: Job)
    requires Whole(script, job).ending.Waits?
    ensures Whole(script + [next], job).ending == Fails(TransientLimit) <==>
            Streak(FirstReads(script + [next], job.turnID)) >= MAX_TRANSIENT
  {
    LoopLimit(script, next, [], 0, true, job, []);
    hide Loop, Streak;
    assert [] + FirstReads(script + [next], job.turnID) == FirstReads(script + [next], job.turnID);
  }

  // ----- One more turn of the loop -----

  /** The broker has not closed the subscription yet. */
  predicate StillOpen(script: seq<Turnover>) {
    forall i :: 0 <= i < |script| ==> !script[i].branch.BrokerClosed?
  }

  /** What the select of a turn of the loop does, once its first read has not settled the wait. */
  ghost predicate Selected(t: Turnover, ops: seq<Capture>, open: bool, job: Job, o: Outcome) {
    if t.branch.ContextEnds? then o == Outcome(Fails(ContextEnded), ops)
    else if !(t.branch.Gets? && open && MatchesTurn(t.branch.seen.e, job.threadID, job.turnID)) then
        o == Outcome(Waits, ops)
    else
      var seen := t.branch.seen;
      var captured := ops + [seen.capture];
      if seen.e.name != "turn/completed" then o == Outcome(Waits, captured)
      else if ReadOf(t.second, job.turnID).Found? then
        var turn := ReadOf(t.second, job.turnID).turn;
        o == Outcome(Returns(turn), captured + [Polled(turn)])
      else if seen.capture.TurnDone? && seen.capture.done.Some? then
        var turn := seen.capture.done.value;
        o == Outcome(Returns(turn), captured + [Polled(turn)])
      else o == Outcome(Waits, captured)
  }

  /** What a turn of the loop does to a wait that has made `ops` and these first reads and is still going. */
  ghost predicate Turned(t: Turnover, firsts: seq<ReadResult>, ops: seq<Capture>, open: bool, job: Job, o: Outcome) {
    match ReadOf(t.first, job.turnID)
    case Found(turn) =>
      if turn.status in {"completed", "failed", "interrupted"} then o == Settle(turn, ops, open, job)
      else Selected(t, ops + [Polled(turn)], open, job, o)
    case NotFound => Selected(t, ops, open, job, o)
    case Transient =>
      if |firsts| >= 4 && forall k :: |firsts| - 4 <= k < |firsts| ==> firsts[k].Transient? then
        o == Outcome(Fails(TransientLimit), ops)
      else Selected(t, ops, open, job, o)
    case Fatal => o == Outcome(Fails(ReadFailed), ops)
  }

  lemma SelectOne(t: Turnover, ops: seq<Capture>, count: nat, open: bool, job: Job)
    ensures Selected(t, ops, open, job, Select([t], ops, count, open, job))
  {
    hide ReadOf, MatchesTurn;
    assert [t][1..] == [];
    assert forall o, c, b :: Loop([t][1..], o, c, b, job) == Outcome(Waits, o);
  }

  lemma {:induction false} LoopSnoc(script: seq<Turnover>, next: Turnover, ops: seq<Capture>, count: nat, open: bool,
                                    job: Job, history: seq<ReadResult>)
    requires Loop(script, ops, count, open, job).ending.Waits? && count == Streak(history) < MAX_TRANSIENT
    ensures Turned(next, history + FirstReads(script, job.turnID), Loop(script, ops, count, open, job).ops,
                   open && StillOpen(script), job, Loop(script + [next], ops, count, open, job))
    decreases |script|, 1
  {
    hide ReadOf, Settle, Captured, Selected;
    var all := script + [next];
    var read := ReadOf(all[0].first, job.turnID);
    var longer := history + [read];
    assert longer[..|history|] == history;
    if script == [] {
      assert all == [next] && history + FirstReads(script, job.turnID) == history;
      StreakOf(history, 4);
      SelectOne(next, ops, 0, open, job);
      SelectOne(next, ops, count + 1, open, job);
      if read.Found? { SelectOne(next, ops + [Polled(read.turn)], 0, open, job); }
      hide Streak, Select;
    } else {
      assert all[1..] == script[1..] + [next] && all[0] == script[0];
      assert history + FirstReads(script, job.turnID) == longer + FirstReads(script[1..], job.turnID);
      hide Turned;
      if read.Found? {
        SelectSnoc(script, next, ops + [Polled(read.turn)], 0, open, job, longer);
      } else {
        SelectSnoc(script, next, ops, if read.Transient? then count + 1 else 0, open, job, longer);
      }
    }
  }

  lemma {:induction false} SelectSnoc(script: seq<Turnover>, next: Turnover, ops: seq<Capture>, count: nat, open: bool,
                                      job: Job, history: seq<ReadResult>)
    requires script != [] && Select(script, ops, count, open, job).ending.Waits?
        && count == Streak(history) < MAX_TRANSIENT
    ensures Turned(next, history + FirstReads(script[1..], job.turnID), Select(script, ops, count, open, job).ops,
                   open && StillOpen(script), job, Select(script + [next], ops, count, open, job))
    decreases |script|, 0
  {
    hide ReadOf, Loop, MatchesTurn, FinalTurn, Turned;
    assert (script + [next])[1..] == script[1..] + [next] && (script + [next])[0] == script[0];
    assert StillOpen(script) <==> !script[0].branch.BrokerClosed? && StillOpen(script[1..]) by {
      assert forall i :: 1 <= i < |script| ==> script[i] == script[1..][i - 1];
    }
    match script[0].branch
    case ContextEnds =>
    case BrokerClosed => LoopSnoc(script[1..], next, ops, count, false, job, history);
    case Ticks => LoopSnoc(script[1..], next, ops, count, open, job, history);
    case Gets(seen) =>
      var ops' := if open && ForJob(seen, job) then ops + [seen.capture] else ops;
      LoopSnoc(script[1..], next, ops', count, open, job, history);
  }

  /**
   What each turn of the loop does. A wait that is still going settles when its next first read finds
   the turn ended, fails on a hard error or the fifth transient failure in a row, and otherwise does
   what its select says: it ends with the context, captures a matching event, and after a matching
   turn/completed returns the turn it reads again, else the event's own, else goes on.
   */
  lemma OneMoreTurn(script: seq<Turnover>, next: Turnover, job: Job)
    requires Whole(script, job).ending.Waits?
    ensures Turned(next, FirstReads(script, job.turnID), Whole(script, job).ops, StillOpen(script), job,
                   Whole(script + [next], job))
    ensures Whole([], job) == Outcome(Waits, [])
  {
    LoopSnoc(script, next, [], 0, true, job, []);
    assert [] + FirstReads(script, job.turnID) == FirstReads(script, job.turnID);
    hide Turned;
  }

  // ----- The settling of an ended turn -----

  /** The captures of the matching events, in order. */
  function Matched(pending: seq<Seen>, job: Job): seq<Capture> {
    if pending == [] then []
    else
      var first := if MatchesTurn(pending[0].e, job.threadID, job.turnID) then [pending[0].capture] else [];
      first + Matched(pending[1..], job)
  }

  lemma {:induction false} MatchedSnoc(pending: seq<Seen>, seen: Seen, job: Job)
    ensures Matched(pending + [seen], job) ==
            Matched(pending, job) + if MatchesTurn(seen.e, job.threadID, job.turnID) then [seen.capture] else []
  {
    hide MatchesTurn;
    if pending == [] {
      assert [seen][1..] == [];
    } else {
      assert (pending + [seen])[1..] == pending[1..] + [seen];
      MatchedSnoc(pending[1..], seen, job);
    }
  }

  lemma {:induction false} DrainsMatching(ops: seq<Capture>, pending: seq<Seen>, job: Job)
    ensures Drain(ops, pending, job) == ops + Matched(pending, job)
  {
    hide MatchesTurn;
    if pending == [] {
    } else {
      var n := |pending| - 1;
      DrainsMatching(ops, pending[..n], job);
      MatchedSnoc(pending[..n], pending[n], job);
      assert pending == pending[..n] + [pending[n]];
    }
  }

  function Drained(ops: seq<Capture>, open: bool, pending: seq<Seen>, job: Job): seq<Capture> {
    ops + if open then Matched(pending, job) else []
  }

  predicate NothingSeen(ops: seq<Capture>) {
    Replay(ops).items == [] && Replay(ops).deltas == [] && Replay(ops).usage.None?
  }

  /**
   An ended turn is returned as read, with all pending events captured, unless it completed and nothing
   at all was seen.
   */
  lemma SettlesAtOnce(turn: Turn, ops: seq<Capture>, open: bool, job: Job)
    ensures var drained := Drained(ops + [Polled(turn)], open, job.pending, job);
            if turn.status == "completed" && turn.items == [] && NothingSeen(drained)
            then Settle(turn, ops, open, job) == Retry(turn, drained, job.attempts, 3, open, job)
            else Settle(turn, ops, open, job) == Outcome(Returns(turn), drained)
  {
    DrainsMatching(ops + [Polled(turn)], job.pending, job);
    assert ops + [Polled(turn)] + [] == ops + [Polled(turn)];
    hide Drain, Matched, Replay, Retry;
  }

  /** What an attempt to read an empty turn again does while attempts are left. */
  lemma RetryOnce(best: Turn, ops: seq<Capture>, attempts: seq<Attempt>, left: nat, open: bool, job: Job)
    ensures left == 0 || attempts == [] || attempts[0].cancelled ==>
              Retry(best, ops, attempts, left, open, job) == Outcome(Returns(best), ops)
    ensures left > 0 && attempts != [] && !attempts[0].cancelled ==>
              var drained := Drained(ops, open, attempts[0].pending, job);
              var read := ReadOf(attempts[0].reply, job.turnID);
              Retry(best, ops, attempts, left, open, job) ==
              if !NothingSeen(drained) then Outcome(Returns(best), drained)
              else if !read.Found? then Retry(best, drained, attempts[1..], left - 1, open, job)
              else if read.turn.items != [] || read.turn.usage.Some? then
                Outcome(Returns(read.turn), drained + [Polled(read.turn)])
              else Retry(read.turn, drained + [Polled(read.turn)], attempts[1..], left - 1, open, job)
  {
    if attempts != [] { DrainsMatching(ops, attempts[0].pending, job); }
    assert ops + [] == ops;
    hide Drain, Matched, Replay, ReadOf;
  }

  /** An attempt that sees no event and no turn. */
  predicate Fruitless(a: Attempt, job: Job) {
    !a.cancelled && a.pending == [] && !ReadOf(a.reply, job.turnID).Found?
  }

  /**
   An empty completed turn is read again, up to three times: when attempt `k` is the first that
   finds the turn, and finds it with items or usage, that turn is returned instead.
   */
  lemma {:induction false} EmptyTurnIsReadAgain(best: Turn, ops: seq<Capture>, attempts: seq<Attempt>, left: nat,
      open: bool, job: Job, k: nat)
    requires NothingSeen(ops) && k < left && k < |attempts|
    requires forall j :: 0 <= j < k ==> Fruitless(attempts[j], job)
    requires !attempts[k].cancelled && attempts[k].pending == [] && ReadOf(attempts[k].reply, job.turnID).Found?
    requires var turn := ReadOf(attempts[k].reply, job.turnID).turn; turn.items != [] || turn.usage.Some?
    ensures Retry(best, ops, attempts, left, open, job) ==
            var turn := ReadOf(attempts[k].reply, job.turnID).turn; Outcome(Returns(turn), ops + [Polled(turn)])
    decreases k
  {
    RetryOnce(best, ops, attempts, left, open, job);
    assert Matched([], job) == [] && ops + [] == ops;
    hide Retry, ReadOf, NothingSeen;
    if k == 0 {
    } else {
      assert Fruitless(attempts[0], job);
      assert forall j :: 0 <= j < k - 1 ==> attempts[1..][j] == attempts[j + 1];
      EmptyTurnIsReadAgain(best, ops, attempts[1..], left - 1, open, job, k - 1);
    }
  }

  // ----- When the wait returns a turn that has not ended -----

  /**
   What the server says once it has reported the turn over: by a matching turn/completed event or a
   completed read.
   */
  ghost predicate LateTurns(script: seq<Turnover>, job: Job, late: iset<Turn>) {
    && (forall i :: 0 <= i < |script| ==> LateTurnover(script[i], job, late))
    && (forall i :: 0 <= i < |job.attempts| ==> LateReply(job.attempts[i].reply, job, late))
  }

  ghost predicate LateReply(reply: Reply, job: Job, late: iset<Turn>) {
    var read := ReadOf(reply, job.turnID);
    read.Found? ==> read.turn in late
  }

  ghost predicate LateTurnover(t: Turnover, job: Job, late: iset<Turn>) {
    t.branch.Gets? && ForJob(t.branch.seen, job) && t.branch.seen.e.name == TURN_COMPLETED ==>
      && LateReply(t.second, job, late)
      && (t.branch.seen.capture.TurnDone? && t.branch.seen.capture.done.Some? ==>
          t.branch.seen.capture.done.value in late)
  }

  ghost predicate EndedOrLate(o: Outcome, late: iset<Turn>) {
    o.ending.Returns? ==> IsTerminal(o.ending.turn.status) || o.ending.turn in late
  }

  lemma {:induction false} RetryIsLate(best: Turn, ops: seq<Capture>, attempts: seq<Attempt>, left: nat, open: bool,
      job: Job, late: iset<Turn>)
    requires IsTerminal(best.status) || best in late
    requires forall i :: 0 <= i < |attempts| ==> LateReply(attempts[i].reply, job, late)
    ensures EndedOrLate(Retry(best, ops, attempts, left, open, job), late)
    decreases left
  {
    hide ReadOf, Replay, Drain, IsTerminal, SawNothing;
    if !(left == 0 || attempts == [] || attempts[0].cancelled) {
      var drained := if open then Drain(ops, attempts[0].pending, job) else ops;
      assert LateReply(attempts[0].reply, job, late);
      RetryIsLate(best, drained, attempts[1..], left - 1, open, job, late);
      var read := ReadOf(attempts[0].reply, job.turnID);
      if read.Found? {
        RetryIsLate(read.turn, drained + [Polled(read.turn)], attempts[1..], left - 1, open, job, late);
      }
    }
  }

  lemma {:induction false} LoopIsLate(script: seq<Turnover>, ops: seq<Capture>, count: nat, open: bool, job: Job,
      late: iset<Turn>)
    requires LateTurns(script, job, late)
    ensures EndedOrLate(Loop(script, ops, count, open, job), late)
    decreases script
  {
    hide ReadOf, IsTerminal, SawNothing, Replay, Drain, Retry, LateTurnover;
    if script == [] {
    } else {
      var read := ReadOf(script[0].first, job.turnID);
      if read.Found? {
        var polled := ops + [Polled(read.turn)];
        if IsTerminal(read.turn.status) {
          RetryIsLate(read.turn, if open then Drain(polled, job.pending, job)
              else polled, job.attempts, 3, open, job, late);
        }
        SelectIsLate(script, polled, 0, open, job, late);
      }
      SelectIsLate(script, ops, 0, open, job, late);
      SelectIsLate(script, ops, count + 1, open, job, late);
    }
  }

  lemma {:induction false} SelectIsLate(script: seq<Turnover>, ops: seq<Capture>, count: nat, open: bool, job: Job,
      late: iset<Turn>)
    requires script != [] && LateTurns(script, job, late)
    ensures EndedOrLate(Select(script, ops, count, open, job), late)
    decreases script, 0
  {
    hide ReadOf, Loop, MatchesTurn, IsTerminal;
    assert LateTurnover(script[0], job, late);
    LoopIsLate(script[1..], ops, count, false, job, late);
    LoopIsLate(script[1..], ops, count, open, job, late);
    if script[0].branch.Gets? {
      LoopIsLate(script[1..], ops + [script[0].branch.seen.capture], count, open, job, late);
    }
  }

  /** A turn the wait can return as a late one: an event without a turn id of its own is matched by its turn's. */
  predicate Eligible(t: Turn, turnID: string) {
    TrimSpace(turnID) != "" || t.id == turnID
  }

  /**
   Run is documented to block until the turn has ended. The code meets that exactly when the server
   never contradicts itself: the wait returns ended turns only if and only if every turn the server
   gives after reporting the turn over, in the event itself or in a later read, has ended. With a
   blank turn id this is asked only of turns with that very id.
   */
  lemma ReturnsEndedTurnsExactly(threadID: string, turnID: string, late: iset<Turn>)
    ensures (forall script, pending, attempts ::
               var job := Job(threadID, turnID, pending, attempts);
               LateTurns(script, job, late) && Whole(script, job).ending.Returns? ==>
                 IsTerminal(Whole(script, job).ending.turn.status))
            <==> forall t :: t in late && Eligible(t, turnID) ==> IsTerminal(t.status)
  {
    var own := iset t | t in late && Eligible(t, turnID);
    hide IsTerminal, LateTurns, Loop, Eligible;
    forall script, pending, attempts
      ensures EndedOrLate(Whole(script, Job(threadID, turnID, pending, attempts)), own)
              || !LateTurns(script, Job(threadID, turnID, pending, attempts), late)
    {
      var job := Job(threadID, turnID, pending, attempts);
      if LateTurns(script, job, late) {
        OwnTurnsOnly(script, job, late, own);
        LoopIsLate(script, [], 0, true, job, own);
      }
    }
    forall t | t in late && Eligible(t, turnID)
      ensures LateTurns(Announces(threadID, turnID, t), Job(threadID, turnID, [], []), late)
      ensures Whole(Announces(threadID, turnID, t), Job(threadID, turnID, [], [])).ending == Returns(t)
    {
      AnnouncedTurnIsReturned(threadID, turnID, t, late);
    }
  }

  lemma ReadHasId(reply: Reply, turnID: string)
    ensures ReadOf(reply, turnID).Found? ==> ReadOf(reply, turnID).turn.id == turnID
  {
    if reply.Turns? { LastTurnHasId(reply.turns, turnID); }
    hide LastTurn;
  }

  /** Late turns that are not eligible are never read, and their events do not match. */
  lemma OwnTurnsOnly(script: seq<Turnover>, job: Job, late: iset<Turn>, own: iset<Turn>)
    requires LateTurns(script, job, late) && own == iset t | t in late && Eligible(t, job.turnID)
    ensures LateTurns(script, job, own)
  {
    hide ReadOf, TrimSpace;
    forall i | 0 <= i < |script| ensures LateTurnover(script[i], job, own) {
      assert LateTurnover(script[i], job, late);
      ReadHasId(script[i].second, job.turnID);
      if script[i].branch.Gets? { assert FromDecoder(script[i].branch.seen); }
    }
    forall i | 0 <= i < |job.attempts| ensures LateReply(job.attempts[i].reply, job, own) {
      assert LateReply(job.attempts[i].reply, job, late);
      ReadHasId(job.attempts[i].reply, job.turnID);
    }
  }

  /** A script whose first event is a turn/completed carrying `t`, and whose reads find no turn. */
  function Announces(threadID: string, turnID: string, t: Turn): seq<Turnover> {
    [Turnover(Turns([]), Gets(Notice(Event(TURN_COMPLETED, CarriesTurn(threadID, turnID, Some(t.id))),
        TurnDone(Some(t), None))), Turns([]))]
  }

  lemma AnnouncedTurnIsReturned(threadID: string, turnID: string, t: Turn, late: iset<Turn>)
    requires t in late && Eligible(t, turnID)
    ensures var job := Job(threadID, turnID, [], []);
            && LateTurns(Announces(threadID, turnID, t), job, late)
            && Whole(Announces(threadID, turnID, t), job).ending == Returns(t)
  {
    var script, job := Announces(threadID, turnID, t), Job(threadID, turnID, [], []);
    var seen := script[0].branch.seen;
    assert MatchesTurn(seen.e, threadID, turnID);
    hide TrimSpace;
    assert Loop(script, [], 0, true, job) == Select(script, [], 0, true, job);
    assert FinalTurn(seen, script[0].second, turnID) == Some(t);
  }

  // ----- The methods -----

  /** capturePendingEvents: `pending` is what the subscription's buffer holds. */
  method CapturePendingEvents(col: OutputCollector, pending: seq<Seen>, job: Job, ghost ops: seq<Capture>)
    requires col.View() == Replay(ops)
    modifies col
    ensures col.View() == Replay(Drain(ops, pending, job))
  {
    hide After, Replay, MatchesTurn;
    for i := 0 to |pending|
      invariant col.View() == Replay(Drain(ops, pending[..i], job))
    {
      assert pending[..i + 1][..i] == pending[..i];
      if ForJob(pending[i], job) {
        ReplayOne(Drain(ops, pending[..i], job), pending[i].capture);
        col.CaptureEvent(pending[i].capture);
      }
    }
    assert pending[..|pending|] == pending;
  }

  method Poll(col: OutputCollector, turn: Turn, ghost ops: seq<Capture>)
    requires col.View() == Replay(ops)
    modifies col
    ensures col.View() == Replay(ops + [Polled(turn)])
  {
    ReplayOne(ops, Polled(turn));
    col.CaptureTurn(turn);
  }

  /** retryReadTurnForItems. */
  method RetryReadTurnForItems(initial: Turn, col: OutputCollector, open: bool, job: Job, ghost ops: seq<Capture>)
      returns (best: Turn)
    requires col.View() == Replay(ops)
    modifies col
    ensures Retry(initial, ops, job.attempts, 3, open, job).ending == Returns(best)
    ensures col.View() == Replay(Retry(initial, ops, job.attempts, 3, open, job).ops)
  {
    hide ReadOf, Replay, Drain;
    best := initial;
    ghost var seen := ops;
    ghost var whole := Retry(initial, ops, job.attempts, 3, open, job);
    var k := 0;
    while k < 3
      invariant k <= 3 && k <= |job.attempts| && col.View() == Replay(seen)
      invariant whole == Retry(best, seen, job.attempts[k..], 3 - k, open, job)
    {
      if k == |job.attempts| || job.attempts[k].cancelled { return; }
      assert job.attempts[k..][0] == job.attempts[k] && job.attempts[k..][1..] == job.attempts[k + 1..];
      if open {
        CapturePendingEvents(col, job.attempts[k].pending, job, seen);
        seen := Drain(seen, job.attempts[k].pending, job);
      }
      if col.items != [] || col.agentTextDeltas != [] || col.eventUsage.Some? { return; }
      var refreshed := ReadTurn(job.attempts[k].reply, job.turnID);
      k := k + 1;
      if refreshed.Found? {
        Poll(col, refreshed.turn, seen);
        seen := seen + [Polled(refreshed.turn)];
        best := refreshed.turn;
        if best.items != [] || best.usage.Some? { return; }
      }
    }
  }

  /** The branch taken when a read finds the turn ended. */
  method SettleTurn(turn: Turn, col: OutputCollector, open: bool, job: Job, ghost ops: seq<Capture>)
      returns (settled: Turn)
    requires col.View() == Replay(ops + [Polled(turn)])
    modifies col
    ensures Settle(turn, ops, open, job).ending == Returns(settled)
    ensures col.View() == Replay(Settle(turn, ops, open, job).ops)
  {
    hide Retry, Replay, Drain;
    ghost var seen := ops + [Polled(turn)];
    if open {
      CapturePendingEvents(col, job.pending, job, seen);
      seen := Drain(seen, job.pending, job);
    }
    settled := turn;
    if turn.status == "completed" && turn.items == [] && col.items == [] && col.agentTextDeltas == []
        && col.eventUsage.None? {
      settled := RetryReadTurnForItems(turn, col, open, job, seen);
    }
  }

  /** The end of the turn/completed branch, once the event is captured. */
  method Completed(seen: Seen, second: Reply, col: OutputCollector, turnID: string, ghost ops: seq<Capture>)
      returns (r: Option<Turn>)
    requires col.View() == Replay(ops)
    modifies col
    ensures r == FinalTurn(seen, second, turnID)
    ensures col.View() == Replay(if r.Some? then ops + [Polled(r.value)] else ops)
  {
    hide ReadOf, Replay;
    var read := ReadTurn(second, turnID);
    if read.Found? {
      Poll(col, read.turn, ops);
      return Some(read.turn);
    }
    if seen.capture.TurnDone? && seen.capture.done.Some? {
      Poll(col, seen.capture.done.value, ops);
      return seen.capture.done;
    }
    r := None;
  }

  /** waitForTurnOutputSub, with the collector it returns. */
  method WaitForTurnOutputSub(script: seq<Turnover>, job: Job) returns (ending: Ending, col: OutputCollector)
    ensures fresh(col)
    ensures ending == Whole(script, job).ending
    ensures col.View() == Replay(Whole(script, job).ops)
  {
    hide ReadOf, Replay, Settle, After, MatchesTurn;
    col := new OutputCollector();
    ghost var ops := [];
    assert Replay(ops) == NOTHING by { ReplayNothing(); }
    ghost var whole := Whole(script, job);
    var count, open, i := 0, true, 0;
    while i < |script|
      invariant i <= |script| && fresh(col) && col.View() == Replay(ops)
      invariant whole == Loop(script[i..], ops, count, open, job)
    {
      assert script[i..][0] == script[i] && script[i..][1..] == script[i + 1..];
      var read := ReadTurn(script[i].first, job.turnID);
      match read {
        case Found(turn) =>
          count := 0;
          Poll(col, turn, ops);
          if IsTerminal(turn.status) {
            var settled := SettleTurn(turn, col, open, job, ops);
            return Returns(settled), col;
          }
          ops := ops + [Polled(turn)];
        case NotFound => count := 0;
        case Transient =>
          count := count + 1;
          if count >= MAX_TRANSIENT { return Fails(TransientLimit), col; }
        case Fatal => return Fails(ReadFailed), col;
      }
      assert whole == Select(script[i..], ops, count, open, job);
      match script[i].branch {
        case ContextEnds => return Fails(ContextEnded), col;
        case BrokerClosed => open := false;
        case Ticks =>
        case Gets(seen) =>
          if open && ForJob(seen, job) {
            ReplayOne(ops, seen.capture);
            col.CaptureEvent(seen.capture);
            ops := ops + [seen.capture];
            if seen.e.name == TURN_COMPLETED {
              var final := Completed(seen, script[i].second, col, job.turnID, ops);
              if final.Some? { return Returns(final.value), col; }
            }
          }
      }
      i := i + 1;
    }
    ending := Waits;
  }
}
