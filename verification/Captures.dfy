/**
 What the collector holds after any captures, and which of it becomes the final text (output.go,
 turn.go, thread.go).
 */
module Captures {
  import opened Wrappers
  import opened Jsonx
  import opened Collector

  // ----- Captures in order -----

  function AllDeltas(ops: seq<Capture>): seq<string> {
    if ops == [] then [] else DeltasOf(ops[0]) + AllDeltas(ops[1..])
  }

  function AllPayloads(ops: seq<Capture>): seq<Payload> {
    if ops == [] then [] else PayloadsOf(ops[0]) + AllPayloads(ops[1..])
  }

  lemma {:induction false} OneMoreCapture(ops: seq<Capture>, op: Capture)
    ensures AllDeltas(ops + [op]) == AllDeltas(ops) + DeltasOf(op)
    ensures AllPayloads(ops + [op]) == AllPayloads(ops) + PayloadsOf(op)
  {
    hide DeltasOf, PayloadsOf;
    if ops == [] {
      assert [op][1..] == [] && [] + [op] == [op];
      assert DeltasOf(op) + [] == [] + DeltasOf(op) && PayloadsOf(op) + [] == [] + PayloadsOf(op);
    } else {
      assert (ops + [op])[1..] == ops[1..] + [op];
      OneMoreCapture(ops[1..], op);
    }
  }

  /** The deltas and the payloads are those of all captures, in the order they were made. */
  lemma {:induction false} CapturedInOrder(ops: seq<Capture>)
    ensures Replay(ops).deltas == AllDeltas(ops)
    ensures Replay(ops).payloads == AllPayloads(ops)
  {
    hide After, DeltasOf, PayloadsOf;
    if ops == [] {
    } else {
      var n := |ops| - 1;
      CapturedInOrder(ops[..n]);
      assert ops == ops[..n] + [ops[n]];
      ReplayOne(ops[..n], ops[n]);
      CaptureEffect(Replay(ops[..n]), ops[n]);
      OneMoreCapture(ops[..n], ops[n]);
    }
  }

  /** The turn a capture brings, and the usage. */
  function TurnOf(op: Capture): Option<Turn> {
    match op
    case Polled(turn) => Some(turn)
    case TurnDone(done, _) => done
    case _ => None
  }

  function UsageOf(op: Capture): Option<nat> {
    if op.TurnDone? then op.usage else None
  }

  /** The collector keeps the turn and the usage that came last. */
  lemma {:induction false} LatestIsKept(ops: seq<Capture>)
    ensures (forall k :: 0 <= k < |ops| ==> TurnOf(ops[k]).None?) ==> Replay(ops).turn.None?
    ensures forall k ::
        0 <= k < |ops| && TurnOf(ops[k]).Some? && (forall j :: k < j < |ops| ==> TurnOf(ops[j]).None?) ==>
              Replay(ops).turn == TurnOf(ops[k])
    ensures (forall k :: 0 <= k < |ops| ==> UsageOf(ops[k]).None?) ==> Replay(ops).usage.None?
    ensures forall k ::
        0 <= k < |ops| && UsageOf(ops[k]).Some? && (forall j :: k < j < |ops| ==> UsageOf(ops[j]).None?) ==>
              Replay(ops).usage == UsageOf(ops[k])
  {
    hide After, Merge;
    if ops == [] {
    } else {
      var n := |ops| - 1;
      LatestIsKept(ops[..n]);
      assert ops == ops[..n] + [ops[n]];
      ReplayOne(ops[..n], ops[n]);
      CaptureEffect(Replay(ops[..n]), ops[n]);
      hide Replay;
      assert forall k :: 0 <= k < n ==> ops[..n][k] == ops[k];
    }
  }

  // ----- Texts -----

  /** The parts one after the other. */
  function Spelled(parts: seq<string>): string {
    if parts == [] then "" else parts[0] + Spelled(parts[1..])
  }

  lemma {:induction false} SpelledSnoc(parts: seq<string>, part: string)
    ensures Spelled(parts + [part]) == Spelled(parts) + part
  {
    if parts == [] {
      assert [part][1..] == [];
    } else {
      assert (parts + [part])[1..] == parts[1..] + [part];
      SpelledSnoc(parts[1..], part);
    }
  }

  lemma {:induction false} JoinSpells(parts: seq<string>)
    ensures Join(parts) == Spelled(parts)
  {
    if parts == [] {
    } else {
      var n := |parts| - 1;
      JoinSpells(parts[..n]);
      SpelledSnoc(parts[..n], parts[n]);
      assert parts == parts[..n] + [parts[n]];
    }
  }

  predicate SaysNothing(item: Item, order: Order) {
    item.kind != "agentMessage" || Text(item.payload, order) == ""
  }

  /** The last agent message with text, item `k`, decides; without any (-1) there is none. */
  lemma {:induction false} LastAgentMessageWins(items: seq<Item>, k: int, order: Order)
    requires -1 <= k < |items| && (k >= 0 ==> !SaysNothing(items[k], order))
    requires forall j :: k < j < |items| ==> SaysNothing(items[j], order)
    ensures AgentText(items, order) == if k < 0 then "" else Text(items[k].payload, order)
  {
    hide Text;
    if k == |items| - 1 {
    } else {
      assert SaysNothing(items[|items| - 1], order);
      LastAgentMessageWins(items[..|items| - 1], k, order);
    }
  }

  /** Likewise for the last payload with text. */
  lemma {:induction false} LastPayloadWins(payloads: seq<Payload>, k: int, order: Order)
    requires -1 <= k < |payloads| && (k >= 0 ==> Text(payloads[k], order) != "")
    requires forall j :: k < j < |payloads| ==> Text(payloads[j], order) == ""
    ensures PayloadText(payloads, order) == if k < 0 then "" else Text(payloads[k], order)
  {
    hide Text;
    if k == |payloads| - 1 {
    } else {
      assert Text(payloads[|payloads| - 1], order) == "";
      LastPayloadWins(payloads[..|payloads| - 1], k, order);
    }
  }

  /**
   The final message after any captures: the turn's agent text; else the collected items'; else all
   deltas ever captured, one after the other; else the last captured payload with text.
   */
  lemma FinalMessageOf(ops: seq<Capture>, turn: Turn, order: Order)
    ensures var c := Replay(ops);
            && (AgentText(turn.items, order) != "" ==>
                  FinalAgentMessage(c, turn, order) == AgentText(turn.items, order))
            && (AgentText(turn.items, order) == "" && AgentText(c.items, order) != "" ==>
                  FinalAgentMessage(c, turn, order) == AgentText(c.items, order))
            && (AgentText(turn.items, order) == "" && AgentText(c.items, order) == "" && AllDeltas(ops) != [] ==>
                  FinalAgentMessage(c, turn, order) == Spelled(AllDeltas(ops)))
            && (AgentText(turn.items, order) == "" && AgentText(c.items, order) == "" && AllDeltas(ops) == [] ==>
                  FinalAgentMessage(c, turn, order) == PayloadText(AllPayloads(ops), order))
  {
    CapturedInOrder(ops);
    JoinSpells(AllDeltas(ops));
    hide Replay, AgentText, PayloadText, AllDeltas, AllPayloads, Spelled, Join;
  }

  /** The text of a result: its own agent text, else the turn's, else the trimmed deltas. */
  lemma FinalAgentTextOf(r: TurnResult, order: Order)
    requires ValidOrder(order)
    ensures AgentText(r.items, order) != "" ==> FinalAgentText(r, order) == AgentText(r.items, order)
    ensures AgentText(r.items, order) == "" && AgentText(r.turn.items, order) != "" ==>
              FinalAgentText(r, order) == AgentText(r.turn.items, order)
    ensures AgentText(r.items, order) == AgentText(r.turn.items, order) == "" ==>
              FinalAgentText(r, order) == TrimSpace(r.deltaText)
  {
    AgentTextTrimmed(r.items, order);
    AgentTextTrimmed(r.turn.items, order);
    hide AgentText, TrimSpace;
  }

  /**
   The result of Run: the turn's own items and usage if it has any, else the collected ones; deltas only
   without agent text.
   */
  lemma RunResultOf(ops: seq<Capture>, turn: Turn, order: Order)
    requires ValidOrder(order)
    ensures var c := Replay(ops);
            var r := RunResult(turn, c, order);
            && r.turn == turn && r.items == (if turn.items == [] then c.items else turn.items)
            && r.usage == (if turn.usage.Some? then turn.usage else c.usage)
            && r.deltaText == if AgentText(r.items, order) == "" then Spelled(AllDeltas(ops)) else ""
  {
    CapturedInOrder(ops);
    JoinSpells(AllDeltas(ops));
    AgentTextTrimmed(turn.items, order);
    AgentTextTrimmed(Replay(ops).items, order);
    assert AgentText([], order) == "";
    TrimmedStays("");
    hide Replay, AgentText, AllDeltas, Spelled, Join, TrimSpace;
  }
}
