/** Which events belong to a turn (eventMatchesTurn and turnEventID in wait.go), and what ends it. */
module TurnEvents {
  import opened Wrappers
  import opened Jsonx
  import opened EventBrokers

  const TURN_COMPLETED := "turn/completed"
  const ERROR := "error"
  const ITEM_COMPLETED := "item/completed"
  const ITEM_STARTED := "item/started"

  function TurnEventID(turnID: string, turn: Option<string>): string {
    if TrimSpace(turnID) != "" then turnID else if turn.Some? then turn.value else ""
  }

  predicate MatchesTurn(e: Event, threadID: string, turnID: string) {
    match e.scope
    case OfTurn(th, tu) => th == threadID && tu == turnID
    case CarriesTurn(th, tu, turn) => th == threadID && TurnEventID(tu, turn) == turnID
    case OfThread(th) => th == threadID
    case Raw(th, tu) => (th == "" || th == threadID) && (tu == "" || tu == turnID)
    case Unscoped => false
  }

  /** The thread an event names, if any; parameters that did not decode may name none. */
  function ThreadNamed(scope: Scope): Option<string> {
    match scope
    case OfTurn(th, _) => Some(th)
    case CarriesTurn(th, _, _) => Some(th)
    case OfThread(th) => Some(th)
    case Raw(th, _) => if th == "" then None else Some(th)
    case Unscoped => None
  }

  /** The turn it names: its own turn id unless that is all space, else the id of the turn it carries. */
  function TurnNamed(scope: Scope): Option<string> {
    match scope
    case OfTurn(_, tu) => Some(tu)
    case CarriesTurn(_, tu, turn) => Some(if !Blank(tu) then tu else if turn.Some? then turn.value else "")
    case Raw(_, tu) => if tu == "" then None else Some(tu)
    case _ => None
  }

  /** An event belongs to every thread and turn that it does not contradict, and an event without a scope to none. */
  lemma MatchesWhatItNames(e: Event, threadID: string, turnID: string)
    ensures MatchesTurn(e, threadID, turnID) <==>
            && !e.scope.Unscoped?
            && (ThreadNamed(e.scope).Some? ==> ThreadNamed(e.scope).value == threadID)
            && (TurnNamed(e.scope).Some? ==> TurnNamed(e.scope).value == turnID)
  {
    if e.scope.CarriesTurn? { BlankIsTrimmedAway(e.scope.turnID); }
    hide TrimSpace, Blank;
  }

  predicate EndsStream(e: Event) {
    e.name == TURN_COMPLETED || e.name == ERROR
  }

  /** The matching events of a log, cut just after the first one that ends the stream. */
  function StreamOf(log: seq<Event>, threadID: string, turnID: string): seq<Event> {
    if log == [] then []
    else if !MatchesTurn(log[0], threadID, turnID) then StreamOf(log[1..], threadID, turnID)
    else if EndsStream(log[0]) then [log[0]]
    else [log[0]] + StreamOf(log[1..], threadID, turnID)
  }

  predicate Ended(out: seq<Event>) {
    out != [] && EndsStream(out[|out| - 1])
  }

  /** Longer logs only extend the stream, and not at all once it has ended. */
  lemma {:induction false} StreamExtends(log: seq<Event>, more: seq<Event>, threadID: string, turnID: string)
    ensures StreamOf(log, threadID, turnID) <= StreamOf(log + more, threadID, turnID)
    ensures Ended(StreamOf(log, threadID, turnID)) ==>
        StreamOf(log + more, threadID, turnID) == StreamOf(log, threadID, turnID)
  {
    if log == [] {
    } else {
      assert (log + more)[1..] == log[1..] + more;
      StreamExtends(log[1..], more, threadID, turnID);
    }
  }

  /** Reading one more event of a stream that has not ended. */
  lemma {:induction false} StreamSnoc(log: seq<Event>, e: Event, threadID: string, turnID: string)
    requires !Ended(StreamOf(log, threadID, turnID))
    ensures StreamOf(log + [e], threadID, turnID) ==
            StreamOf(log, threadID, turnID) + (if MatchesTurn(e, threadID, turnID) then [e] else [])
  {
    if log == [] {
      assert [e][1..] == [];
    } else {
      assert (log + [e])[1..] == log[1..] + [e];
      StreamSnoc(log[1..], e, threadID, turnID);
    }
  }

  function Matching(log: seq<Event>, threadID: string, turnID: string): seq<Event> {
    if log == [] then []
    else if MatchesTurn(log[0], threadID, turnID) then [log[0]] + Matching(log[1..], threadID, turnID)
    else Matching(log[1..], threadID, turnID)
  }

  /** All matching events in order, cut just after the first that ends the stream. */
  lemma {:induction false} StreamIsCut(log: seq<Event>, threadID: string, turnID: string)
    ensures var out := StreamOf(log, threadID, turnID);
            && out <= Matching(log, threadID, turnID)
            && (forall i :: 0 <= i < |out| - 1 ==> !EndsStream(out[i]))
            && (!Ended(out) ==> out == Matching(log, threadID, turnID))
  {
    hide MatchesTurn, EndsStream;
    if log == [] {
    } else {
      StreamIsCut(log[1..], threadID, turnID);
    }
  }

  predicate NoneMatches(log: seq<Event>, threadID: string, turnID: string) {
    forall k :: 0 <= k < |log| ==> !MatchesTurn(log[k], threadID, turnID)
  }

  lemma {:induction false} EmptyStream(log: seq<Event>, threadID: string, turnID: string)
    ensures StreamOf(log, threadID, turnID) == [] <==> NoneMatches(log, threadID, turnID)
  {
    hide MatchesTurn, EndsStream;
    if log == [] {
    } else {
      EmptyStream(log[1..], threadID, turnID);
      assert forall k :: 1 <= k < |log| ==> log[1..][k - 1] == log[k];
    }
  }

  /** A stream that has not ended goes on with that of the later events. */
  lemma {:induction false} StreamSplits(early: seq<Event>, log: seq<Event>, threadID: string, turnID: string)
    requires !Ended(StreamOf(early, threadID, turnID))
    ensures StreamOf(early + log, threadID, turnID) ==
        StreamOf(early, threadID, turnID) + StreamOf(log, threadID, turnID)
  {
    hide MatchesTurn;
    if early == [] {
      assert early + log == log;
    } else {
      assert (early + log)[1..] == early[1..] + log;
      StreamSplits(early[1..], log, threadID, turnID);
    }
  }

  /** Events of other turns leave no trace in the stream. */
  lemma StreamSkips(others: seq<Event>, log: seq<Event>, threadID: string, turnID: string)
    requires NoneMatches(others, threadID, turnID)
    ensures StreamOf(others + log, threadID, turnID) == StreamOf(log, threadID, turnID)
  {
    EmptyStream(others, threadID, turnID);
    StreamSplits(others, log, threadID, turnID);
    hide StreamOf, NoneMatches;
  }
}
