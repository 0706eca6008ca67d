/** Waiting for a turn: WaitForTurn and readTurn (wait.go), and waitForTurnOutputSub (output.go). */
module Wait {
  import opened Wrappers
  import opened Jsonx
  import opened EventBrokers
  import opened TurnEvents
  import opened Collector

  const MAX_TRANSIENT: nat := 5

  predicate IsTerminal(status: string) {
    status == "completed" || status == "failed" || status == "interrupted"
  }

  /** The structured part of an error, when it has one. */
  datatype CodexInfo = CodexInfo(kind: string, httpStatus: int)

  /** What thread/read returns: the thread's turns, or an error with its text. */
  datatype Reply = Turns(turns: seq<Turn>) | Failed(message: string, codex: Option<CodexInfo>)

  /** strings.Contains. */
  predicate Contains(s: string, part: string) {
    part <= s || (s != "" && Contains(s[1..], part))
  }

  datatype ReadResult = Found(turn: Turn) | NotFound | Transient | Fatal

  /** isTransientError of the error readTurn wraps. */
  predicate IsTransient(message: string, codex: Option<CodexInfo>) {
    || (codex.Some? && (codex.value.httpStatus == 429 || codex.value.kind == "HttpConnectionFailed"))
    || Contains("thread/read: " + message, "is empty")
  }

  /** readTurn: the last turn of the thread with this id; errors by how its callers treat them. */
  method ReadTurn(reply: Reply, turnID: string) returns (r: ReadResult)
    ensures r == ReadOf(reply, turnID)
    ensures reply.Turns? ==>
              if r.Found? then
                exists i :: 0 <= i < |reply.turns| && reply.turns[i] == r.turn && r.turn.id == turnID
                            && forall j :: i < j < |reply.turns| ==> reply.turns[j].id != turnID
              else r.NotFound? && forall j :: 0 <= j < |reply.turns| ==> reply.turns[j].id != turnID
    ensures reply.Failed? && Contains(reply.message, "not materialized") ==> r == NotFound
    ensures reply.Failed? && !Contains(reply.message, "not materialized") ==>
              r == if || (reply.codex.Some? && reply.codex.value.httpStatus == 429)
                      || (reply.codex.Some? && reply.codex.value.kind == "HttpConnectionFailed")
                      || Contains("thread/read: " + reply.message, "is empty")
                   then Transient else Fatal
  {
    hide Contains;
    match reply
    case Failed(message, codex) =>
      return if Contains(message, "not materialized") then NotFound
             else if IsTransient(message, codex) then Transient
             else Fatal;
    case Turns(turns) =>
      assert turns[..|turns|] == turns;
      for i := |turns| downto 0
        invariant LastTurn(turns, turnID) == LastTurn(turns[..i], turnID)
        invariant forall j :: i <= j < |turns| ==> turns[j].id != turnID
      {
        assert turns[..i + 1][..i] == turns[..i];
        if turns[i].id == turnID { return Found(turns[i]); }
      }
      r := NotFound;
  }

  function LastTurn(turns: seq<Turn>, turnID: string): ReadResult {
    if turns == [] then NotFound
    else if turns[|turns| - 1].id == turnID then Found(turns[|turns| - 1])
    else LastTurn(turns[..|turns| - 1], turnID)
  }

  function ReadOf(reply: Reply, turnID: string): ReadResult {
    match reply
    case Turns(turns) => LastTurn(turns, turnID)
    case Failed(message, codex) =>
      if Contains(message, "not materialized") then NotFound
      else if IsTransient(message, codex) then Transient
      else Fatal
  }

  lemma {:induction false} LastTurnHasId(turns: seq<Turn>, turnID: string)
    ensures LastTurn(turns, turnID).Found? <==> exists i :: 0 <= i < |turns| && turns[i].id == turnID
    ensures LastTurn(turns, turnID).Found? ==>
        LastTurn(turns, turnID).turn in turns && LastTurn(turns, turnID).turn.id == turnID
  {
    if turns == [] {
    } else {
      LastTurnHasId(turns[..|turns| - 1], turnID);
      assert turns == turns[..|turns| - 1] + [turns[|turns| - 1]];
    }
  }

  // ----- WaitForTurn -----

  /** Which branch of the select fires. */
  datatype Choice = ContextDone | SubscriptionClosed | Arrives(e: Event) | Tick

  /** One iteration of the loop: the first read, the branch taken, and the read that branch may make. */
  datatype Round = Round(first: Reply, choice: Choice, second: Reply)

  datatype WaitError = BlankThread | BlankTurn | TransientLimit | ReadFailed | ContextEnded

  datatype WaitResult = Done(turn: Turn) | Error(why: WaitError) | StillWaiting

  predicate Rechecks(e: Event, threadID: string, turnID: string) {
    MatchesTurn(e, threadID, turnID) && (e.name == TURN_COMPLETED || e.name == ITEM_COMPLETED || e.name == ITEM_STARTED)
  }

  /** The reads one iteration makes when none of them settles the wait. */
  function RoundReads(round: Round, threadID: string, turnID: string): seq<ReadResult> {
    [ReadOf(round.first, turnID)] +
    if round.choice.Arrives? && Rechecks(round.choice.e, threadID, turnID) then [ReadOf(round.second, turnID)] else []
  }

  /** All reads up to the iteration whose select sees the context end. */
  function AllReads(script: seq<Round>, threadID: string, turnID: string): seq<ReadResult> {
    if script == [] then []
    else RoundReads(script[0], threadID, turnID) +
         if script[0].choice.ContextDone? then [] else AllReads(script[1..], threadID, turnID)
  }

  /** The length of the trailing run of transiently failed reads. */
  function Streak(history: seq<ReadResult>): nat {
    if history == [] || !history[|history| - 1].Transient? then 0 else 1 + Streak(history[..|history| - 1])
  }

  /** The wait is settled by the last read: a terminal turn, a hard error, or five transient failures in a row. */
  predicate Settles(history: seq<ReadResult>) {
    history != [] &&
    match history[|history| - 1]
    case Found(turn) => IsTerminal(turn.status)
    case NotFound => false
    case Fatal => true
    case Transient => Streak(history) >= MAX_TRANSIENT
  }

  function Verdict(read: ReadResult): WaitResult {
    match read
    case Found(turn) => Done(turn)
    case NotFound => StillWaiting
    case Transient => Error(TransientLimit)
    case Fatal => Error(ReadFailed)
  }

  /** No earlier moment of `history` settled the wait. */
  ghost predicate Undecided(history: seq<ReadResult>) {
    forall k :: 0 <= k < |history| ==> !Settles(history[..k])
  }

  lemma UndecidedGrows(history: seq<ReadResult>, read: ReadResult)
    requires Undecided(history) && !Settles(history)
    ensures Undecided(history + [read])
  {
    forall k | 0 <= k < |history| + 1 ensures !Settles((history + [read])[..k]) {
      assert (history + [read])[..k] == history[..k];
      assert k == |history| ==> history[..k] == history;
    }
  }

  /** A check site: read, count, and decide whether to return. */
  method Check(count: nat, reply: Reply, turnID: string, ghost history: seq<ReadResult>)
      returns (next: nat, read: ReadResult, settled: bool)
    requires Undecided(history) && !Settles(history) && count == Streak(history) < MAX_TRANSIENT
    ensures read == ReadOf(reply, turnID) && (read.Found? ==> read.turn.id == turnID)
    ensures next == Streak(history + [read]) <= MAX_TRANSIENT && (!settled ==> next < MAX_TRANSIENT)
    ensures settled == Settles(history + [read]) && Undecided(history + [read])
  {
    read := ReadTurn(reply, turnID);
    if reply.Turns? { LastTurnHasId(reply.turns, turnID); }
    hide ReadOf, LastTurn;
    UndecidedGrows(history, read);
    assert (history + [read])[..|history|] == history;
    match read
    case Found(turn) => next, settled := 0, IsTerminal(turn.status);
    case NotFound => next, settled := 0, false;
    case Transient => next, settled := count + 1, count + 1 >= MAX_TRANSIENT;
    case Fatal => next, settled := 0, true;
  }

  /** One iteration; Some result when it returns. */
  method Iterate(count: nat, round: Round, threadID: string, turnID: string, before: seq<ReadResult>)
      returns (next: nat, r: Option<WaitResult>, history: seq<ReadResult>)
    requires Undecided(before) && !Settles(before) && count == Streak(before) < MAX_TRANSIENT
    ensures history <= before + RoundReads(round, threadID, turnID) && Undecided(history)
        && next == Streak(history) <= MAX_TRANSIENT
    ensures Settles(history) ==> history != [] && r == Some(Verdict(history[|history| - 1]))
    ensures r.Some? && r.value.Done? ==> r.value.turn.id == turnID && IsTerminal(r.value.turn.status)
    ensures !Settles(history) ==>
              && history == before + RoundReads(round, threadID, turnID) && next < MAX_TRANSIENT
              && r == if round.choice.ContextDone? then Some(Error(ContextEnded)) else None
    ensures r == Some(Error(TransientLimit)) <==> next == MAX_TRANSIENT
  {
    hide ReadOf, Undecided, MatchesTurn, IsTerminal;
    var read, settled;
    next, read, settled := Check(count, round.first, turnID, before);
    history := before + [read];
    if settled { return next, Some(Verdict(read)), history; }
    if round.choice.ContextDone? { return next, Some(Error(ContextEnded)), history; }
    if round.choice.Arrives? && Rechecks(round.choice.e, threadID, turnID) {
      next, read, settled := Check(next, round.second, turnID, history);
      assert before + RoundReads(round, threadID, turnID) == history + [read];
      history := history + [read];
      if settled { return next, Some(Verdict(read)), history; }
    }
    r := None;
  }

  predicate SeesEnd(script: seq<Round>) {
    exists i :: 0 <= i < |script| && script[i].choice.ContextDone?
  }

  /**
   WaitForTurn, run on a script of iterations; `history` is every read it made. The wait goes
   through the reads in order and stops at the first that settles it: a terminal turn with the
   requested id, a hard error, or the fifth transient failure in a row, counted over both check
   sites and restarted by every read that succeeds or finds no turn.
   */
  method WaitForTurn(threadID: string, turnID: string, script: seq<Round>)
      returns (r: WaitResult, history: seq<ReadResult>)
    ensures TrimSpace(threadID) == "" ==> r == Error(BlankThread) && history == []
    ensures TrimSpace(threadID) != "" && TrimSpace(turnID) == "" ==> r == Error(BlankTurn) && history == []
    ensures TrimSpace(threadID) != "" && TrimSpace(turnID) != "" ==>
              && history <= AllReads(script, threadID, turnID)
              && Undecided(history)
              && (Settles(history) ==> r == Verdict(history[|history| - 1]))
              && (!Settles(history) ==>
                    && history == AllReads(script, threadID, turnID)
                    && r == if SeesEnd(script) then Error(ContextEnded) else StillWaiting)
    ensures r == Error(TransientLimit) <==> Streak(history) == MAX_TRANSIENT
    ensures r.Done? ==> r.turn.id == turnID && IsTerminal(r.turn.status)
  {
    history := [];
    EmptyIsUndecided();
    hide TrimSpace, Undecided, RoundReads, Settles, Streak, Verdict, IsTerminal;
    if TrimSpace(threadID) == "" { return Error(BlankThread), history; }
    if TrimSpace(turnID) == "" { return Error(BlankTurn), history; }
    var count := 0;
    var i := 0;
    while i < |script|
      invariant i <= |script|
      invariant AllReads(script, threadID, turnID) == history + AllReads(script[i..], threadID, turnID)
      invariant Undecided(history) && !Settles(history) && count == Streak(history) < MAX_TRANSIENT
      invariant forall k :: 0 <= k < i ==> !script[k].choice.ContextDone?
    {
      ghost var before := history;
      assert script[i..][0] == script[i] && script[i..][1..] == script[i + 1..];
      ghost var rest := if script[i].choice.ContextDone? then [] else AllReads(script[i + 1..], threadID, turnID);
      assert AllReads(script, threadID, turnID) == before + RoundReads(script[i], threadID, turnID) + rest;
      hide AllReads;
      var result;
      count, result, history := Iterate(count, script[i], threadID, turnID, history);
      if result.Some? { return result.value, history; }
      i := i + 1;
    }
    r := StillWaiting;
  }

  lemma EmptyIsUndecided()
    ensures Undecided([]) && !Settles([]) && Streak([]) == 0
  {
  }

  // ----- The reads of a script, said outright -----

  /** An iteration reads once, and again after a matching event that may have changed the turn. */
  lemma ReadsOfRound(round: Round, threadID: string, turnID: string)
    ensures RoundReads(round, threadID, turnID) ==
            if round.choice.Arrives? && MatchesTurn(round.choice.e, threadID, turnID)
               && round.choice.e.name in {"turn/completed", "item/completed", "item/started"}
            then [ReadOf(round.first, turnID), ReadOf(round.second, turnID)]
            else [ReadOf(round.first, turnID)]
  {
    hide ReadOf, MatchesTurn;
  }

  lemma {:induction false} ReadsSplit(front: seq<Round>, back: seq<Round>, threadID: string, turnID: string)
    requires !SeesEnd(front)
    ensures AllReads(front + back, threadID, turnID) ==
            AllReads(front, threadID, turnID) + AllReads(back, threadID, turnID)
  {
    hide RoundReads;
    if front == [] {
      assert front + back == back;
    } else {
      assert (front + back)[0] == front[0] && (front + back)[1..] == front[1..] + back;
      assert !front[0].choice.ContextDone?;
      assert forall i :: 0 <= i < |front| - 1 ==> front[1..][i] == front[i + 1];
      ReadsSplit(front[1..], back, threadID, turnID);
    }
  }

  /** The reads follow the iterations, up to and with the one whose select sees the context end. */
  lemma ReadsInOrder(front: seq<Round>, round: Round, back: seq<Round>, threadID: string, turnID: string)
    requires !SeesEnd(front)
    ensures AllReads(front + [round] + back, threadID, turnID) ==
            AllReads(front, threadID, turnID) + RoundReads(round, threadID, turnID) +
            if round.choice.ContextDone? then [] else AllReads(back, threadID, turnID)
  {
    hide RoundReads, SeesEnd;
    assert front + [round] + back == front + ([round] + back);
    ReadsSplit(front, [round] + back, threadID, turnID);
    assert ([round] + back)[0] == round && ([round] + back)[1..] == back;
    var rest := if round.choice.ContextDone? then [] else AllReads(back, threadID, turnID);
    assert AllReads([round] + back, threadID, turnID) == RoundReads(round, threadID, turnID) + rest;
    hide AllReads;
  }

  /** What settles the wait: an ended turn, a hard error, or a transient failure after four others in a row. */
  lemma SettlesWhen(history: seq<ReadResult>, read: ReadResult)
    ensures Settles(history + [read]) <==>
            match read
            case Found(turn) => turn.status in {"completed", "failed", "interrupted"}
            case NotFound => false
            case Fatal => true
            case Transient => |history| >= 4 && forall k :: |history| - 4 <= k < |history| ==> history[k].Transient?
  {
    var all := history + [read];
    assert all[..|history|] == history;
    StreakOf(all, 5);
    assert read.Transient? ==>
        (Streak(all) >= 5 <==> |all| >= 5 && forall k :: |all| - 5 <= k < |all| ==> all[k].Transient?);
    hide Streak;
    assert forall k :: 0 <= k < |history| ==> all[k] == history[k];
  }

  lemma {:induction false} StreakOf(history: seq<ReadResult>, n: nat)
    ensures Streak(history) >= n <==>
            |history| >= n && forall k :: |history| - n <= k < |history| ==> history[k].Transient?
    decreases n
  {
    if n == 0 || history == [] {
    } else {
      var front := history[..|history| - 1];
      StreakOf(front, n - 1);
      assert forall k :: 0 <= k < |front| ==> front[k] == history[k];
    }
  }

  /** What the wait then returns. */
  lemma VerdictIs(read: ReadResult)
    ensures read.Found? ==> Verdict(read) == Done(read.turn)
    ensures read.Transient? ==> Verdict(read) == Error(TransientLimit)
    ensures read.Fatal? ==> Verdict(read) == Error(ReadFailed)
  {
  }
}
