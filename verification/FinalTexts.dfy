/**
 The two extractions of a turn's final text: FinalAgentText of the result of Run (turn.go, thread.go)
 and finalAgentMessage of the collector (output.go).
 */
module FinalTexts {
  import opened Wrappers
  import opened Jsonx
  import opened TextOutcomes
  import opened Collector

  lemma {:induction false} AgentTextEmptiness(items: seq<Item>, order: Order, other: Order)
    requires ValidOrder(order) && ValidOrder(other)
    ensures AgentText(items, order) == "" <==> AgentText(items, other) == ""
  {
    hide ExtractTextValue;
    if items == [] {
    } else {
      AgentTextEmptiness(items[..|items| - 1], order, other);
      var p := items[|items| - 1].payload;
      if p.Decoded? { EmptinessIgnoresOrder(p.v, [], [], order, other); }
    }
  }

  /**
   When the text of Run's result equals the trimmed message of the collector, for the iteration
   orders `during` Run, `later` in FinalAgentText and `there` in finalAgentMessage. They agree when
   both find the same text in the completed turn; otherwise a turn that lists items, none with agent
   text, hides the collector's items from the result, and only the collector falls back to other
   payloads.
   */
  lemma PathsAgree(turn: Turn, c: Collected, during: Order, later: Order, there: Order)
    requires ValidOrder(during) && ValidOrder(later) && ValidOrder(there)
    ensures FinalAgentText(RunResult(turn, c, during), later) == TrimSpace(FinalAgentMessage(c, turn, there)) <==>
            if AgentText(turn.items, there) != "" then AgentText(turn.items, later) == AgentText(turn.items, there)
            else if AgentText(c.items, there) != "" then
              (if turn.items == [] then AgentText(c.items, later) else TrimSpace(Join(c.deltas))) ==
                  AgentText(c.items, there)
            else c.deltas != [] || PayloadText(c.payloads, there) == ""
  {
    ResultText(turn, c, during, later);
    AgentTextEmptiness(turn.items, later, there);
    AgentTextEmptiness(c.items, later, there);
    AgentTextTrimmed(turn.items, there);
    AgentTextTrimmed(c.items, there);
    PayloadTextTrimmed(c.payloads, there);
    hide AgentText, PayloadText, Join, FinalAgentText, RunResult;
    TrimmedStays("");
  }

  /** The text of Run's result; the delta text counts only when no item has agent text. */
  lemma ResultText(turn: Turn, c: Collected, during: Order, later: Order)
    requires ValidOrder(during) && ValidOrder(later)
    ensures FinalAgentText(RunResult(turn, c, during), later) ==
            if AgentText(turn.items, later) != "" then AgentText(turn.items, later)
            else if turn.items == [] && AgentText(c.items, later) != "" then AgentText(c.items, later)
            else TrimSpace(Join(c.deltas))
  {
    var items := if turn.items == [] then c.items else turn.items;
    AgentTextEmptiness(turn.items, during, later);
    AgentTextEmptiness(items, during, later);
    AgentTextTrimmed(turn.items, during);
    AgentTextTrimmed(items, during);
    AgentTextTrimmed(turn.items, later);
    AgentTextTrimmed(items, later);
    assert AgentText([], later) == "";
    TrimmedStays("");
    hide AgentText, Join, TrimSpace;
  }

  // ----- Over all iteration orders -----

  function PayloadOutcomes(p: Payload): set<string> {
    if p.Decoded? then Outcomes(p.v) else {""}
  }

  /** Every text the backward scan for agent messages can give. */
  function AgentOutcomes(items: seq<Item>): (r: set<string>)
    ensures r != {} && ("" in r ==> r == {""})
  {
    if items == [] then {""}
    else
      var last := items[|items| - 1];
      var texts := if last.kind == AGENT_MESSAGE then PayloadOutcomes(last.payload) else {""};
      if texts != {""} then texts else AgentOutcomes(items[..|items| - 1])
  }

  predicate NoText(payloads: seq<Payload>) {
    forall i :: 0 <= i < |payloads| ==> PayloadOutcomes(payloads[i]) == {""}
  }

  lemma {:induction false} AgentTextIsOutcome(items: seq<Item>, order: Order)
    requires ValidOrder(order)
    ensures AgentText(items, order) in AgentOutcomes(items)
  {
    hide ExtractTextValue, Outcomes;
    if items == [] {
    } else {
      AgentTextIsOutcome(items[..|items| - 1], order);
      var p := items[|items| - 1].payload;
      if p.Decoded? { ExtractIsOutcome(p.v, [], order); }
    }
  }

  lemma {:induction false} RealizeAgentText(items: seq<Item>, text: string) returns (order: Order)
    requires text in AgentOutcomes(items)
    ensures ValidOrder(order) && AgentText(items, order) == text
  {
    hide ExtractTextValue, Outcomes;
    if items == [] {
      order := AnyOrder();
    } else {
      var last := items[|items| - 1];
      if last.kind == AGENT_MESSAGE && PayloadOutcomes(last.payload) != {""} {
        order := Realize(last.payload.v, text, []);
      } else {
        order := RealizeAgentText(items[..|items| - 1], text);
        if last.payload.Decoded? { ExtractIsOutcome(last.payload.v, [], order); }
      }
    }
  }

  lemma {:induction false} PayloadTextEmptiness(payloads: seq<Payload>, order: Order)
    requires ValidOrder(order)
    ensures PayloadText(payloads, order) == "" <==> NoText(payloads)
  {
    hide ExtractTextValue, Outcomes;
    if payloads == [] {
    } else {
      var n := |payloads| - 1;
      PayloadTextEmptiness(payloads[..n], order);
      if payloads[n].Decoded? { ExtractIsOutcome(payloads[n].v, [], order); }
      assert NoText(payloads) <==> NoText(payloads[..n]) && PayloadOutcomes(payloads[n]) == {""} by {
        assert forall i :: 0 <= i < n ==> payloads[..n][i] == payloads[i];
      }
    }
  }

  /** When the two texts are the same, as seen from the payloads alone. */
  predicate Agreeing(turn: Turn, c: Collected) {
    if AgentOutcomes(turn.items) != {""} then Settled(AgentOutcomes(turn.items))
    else if AgentOutcomes(c.items) != {""} then
      if turn.items == [] then Settled(AgentOutcomes(c.items))
          else AgentOutcomes(c.items) == {TrimSpace(Join(c.deltas))}
    else c.deltas != [] || NoText(c.payloads)
  }

  lemma AgreeingIsEnough(turn: Turn, c: Collected, during: Order, later: Order, there: Order)
    requires Agreeing(turn, c) && ValidOrder(during) && ValidOrder(later) && ValidOrder(there)
    ensures FinalAgentText(RunResult(turn, c, during), later) == TrimSpace(FinalAgentMessage(c, turn, there))
  {
    AgentTextIsOutcome(turn.items, later);
    AgentTextIsOutcome(turn.items, there);
    AgentTextIsOutcome(c.items, later);
    AgentTextIsOutcome(c.items, there);
    PayloadTextEmptiness(c.payloads, there);
    PathsAgree(turn, c, during, later, there);
    hide AgentText, AgentOutcomes, NoText, PayloadText, Join, TrimSpace, FinalAgentText, FinalAgentMessage, RunResult;
  }

  lemma AgreeingIsNeeded(turn: Turn, c: Collected) returns (later: Order, there: Order)
    requires !Agreeing(turn, c)
    ensures ValidOrder(later) && ValidOrder(there)
    ensures FinalAgentText(RunResult(turn, c, later), later) != TrimSpace(FinalAgentMessage(c, turn, there))
  {
    hide AgentText, AgentOutcomes, NoText, PayloadText, Join, TrimSpace, FinalAgentText, FinalAgentMessage, RunResult,
        ValidOrder;
    var scanned := if AgentOutcomes(turn.items) != {""} then turn.items else c.items;
    if AgentOutcomes(turn.items) == {""} && AgentOutcomes(c.items) != {""} && turn.items != [] {
      var text :| text in AgentOutcomes(c.items) && text != TrimSpace(Join(c.deltas));
      there := RealizeAgentText(c.items, text);
      later := there;
    } else if !Settled(AgentOutcomes(scanned)) {
      var a, b :| a in AgentOutcomes(scanned) && b in AgentOutcomes(scanned) && a != b;
      later := RealizeAgentText(scanned, a);
      there := RealizeAgentText(scanned, b);
    } else {
      there := AnyOrder();
      later := there;
    }
    AgentTextIsOutcome(turn.items, there);
    AgentTextIsOutcome(c.items, there);
    PayloadTextEmptiness(c.payloads, there);
    PathsAgree(turn, c, later, later, there);
  }

  /**
   The two extractions give the same text, whatever the iteration orders, exactly when this shows in
   the payloads: the completed turn has agent text and only one; or it lists no item, and the
   collector's agent text is the only one; or the collected deltas spell that text out; or there is
   no agent text at all, and then there are deltas or no other payload has text.
   */
  lemma PathsAlwaysAgree(turn: Turn, c: Collected)
    ensures (forall during: Order, later: Order, there: Order ::
        ValidOrder(during) && ValidOrder(later) && ValidOrder(there) ==>
               FinalAgentText(RunResult(turn, c, during), later) == TrimSpace(FinalAgentMessage(c, turn, there)))
            <==> Agreeing(turn, c)
  {
    hide Agreeing, FinalAgentText, FinalAgentMessage, RunResult, TrimSpace, ValidOrder;
    if Agreeing(turn, c) {
      forall during: Order, later: Order, there: Order | ValidOrder(during) && ValidOrder(later) && ValidOrder(there)
        ensures FinalAgentText(RunResult(turn, c, during), later) == TrimSpace(FinalAgentMessage(c, turn, there))
      {
        AgreeingIsEnough(turn, c, during, later, there);
      }
    } else {
      var later, there := AgreeingIsNeeded(turn, c);
    }
  }

  /**
   In particular, when the turn's list is empty or has agent text, and agent text or a delta was
   captured: they agree whatever the orders exactly when that agent text is settled.
   */
  lemma PathsAgreeOnCaptured(turn: Turn, c: Collected)
    requires turn.items == [] || AgentOutcomes(turn.items) != {""}
    requires AgentOutcomes(turn.items) != {""} || AgentOutcomes(c.items) != {""} || c.deltas != []
    ensures (forall during: Order, later: Order, there: Order ::
        ValidOrder(during) && ValidOrder(later) && ValidOrder(there) ==>
               FinalAgentText(RunResult(turn, c, during), later) == TrimSpace(FinalAgentMessage(c, turn, there)))
            <==> Settled(AgentOutcomes(if turn.items == [] then c.items else turn.items))
  {
    PathsAlwaysAgree(turn, c);
    assert turn.items == [] ==> AgentOutcomes(turn.items) == {""};
    hide AgentOutcomes, FinalAgentText, FinalAgentMessage, RunResult, TrimSpace, ValidOrder;
  }

  lemma MergeOther(item: Item, other: Item)
    requires other.id != "" && other.id != item.id
    ensures Merge([item], [other]) == [item, other]
  {
    var existing, incoming := [item], [other];
    LastAtIs(existing, other.id, -1);
    assert MergeOne(existing, other) == [item, other];
    hide LastAt, MergeOne;
    assert incoming[..0] == [] && LinearMerge(existing, incoming[..0]) == existing;
    assert LinearMerge(existing, incoming) == MergeOne(existing, other);
  }

  lemma ReplayEventThenTurn(item: Item, turn: Turn, other: Item)
    requires turn.items == [other] && other.id != "" && other.id != item.id
    ensures var c := Replay([ItemDone(Some(item)), Polled(turn)]);
            c.items == [item, other] && c.deltas == []
  {
    var ops := [ItemDone(Some(item)), Polled(turn)];
    assert ops == [] + [ItemDone(Some(item))] + [Polled(turn)];
    ReplayNothing();
    ReplayOne([], ItemDone(Some(item)));
    ReplayOne([] + [ItemDone(Some(item))], Polled(turn));
    MergeOther(item, other);
    hide Replay, Merge, KeepPayloads;
    var c := After(NOTHING, ItemDone(Some(item)));
    assert c.items == [] + [item] == [item] && c.deltas == [];
    assert Replay(ops) == AfterTurn(c, turn);
  }

  lemma ShortText(s: string, order: Order)
    requires |s| == 2 && Trimmed(s)
    ensures Text(Decoded(Str(s)), order) == s
  {
    TrimmedStays(s);
    hide TrimSpace;
    assert |"```"| == 3 && |"```json"| == 7;
    assert StripCodeFence(s) == s;
  }

  /** A run in which they differ: the message arrives as an event, and the completed turn lists only another item. */
  lemma PathsCanDisagree(order: Order)
    requires ValidOrder(order)
    ensures var turn := Turn("t", [Item("r", "reasoning", Absent)], "completed", None, Absent);
            var c := Replay([ItemDone(Some(Item("m", AGENT_MESSAGE, Decoded(Str("hi"))))), Polled(turn)]);
            FinalAgentText(RunResult(turn, c, order), order) != TrimSpace(FinalAgentMessage(c, turn, order))
  {
    var other := Item("r", "reasoning", Absent);
    var turn := Turn("t", [other], "completed", None, Absent);
    var message := Item("m", AGENT_MESSAGE, Decoded(Str("hi")));
    var c := Replay([ItemDone(Some(message)), Polled(turn)]);
    ReplayEventThenTurn(message, turn, other);
    ShortText("hi", order);
    PathsAgree(turn, c, order, order, order);
    hide Replay, Text, TrimSpace, FinalAgentText, FinalAgentMessage, RunResult, PayloadText;
    assert turn.items[..0] == [] && AgentText(turn.items, order) == "";
    assert c.items[..1] == [message] && AgentText(c.items, order) == AgentText([message], order) == "hi";
    assert Join(c.deltas) == "" && TrimSpace("") == "";
  }

  /** And orders under which they differ: an agent message with two texts, neither under a preferred key. */
  lemma OrdersCanDisagree() returns (turn: Turn, c: Collected, later: Order, there: Order)
    ensures ValidOrder(later) && ValidOrder(there) && c == Replay([Polled(turn)]) && AgentOutcomes(turn.items) != {""}
    ensures FinalAgentText(RunResult(turn, c, later), later) != TrimSpace(FinalAgentMessage(c, turn, there))
  {
    var v := Obj(map["a" := Str("hi"), "b" := Str("ho")]);
    turn := Turn("t", [Item("m", AGENT_MESSAGE, Decoded(v))], "completed", None, Absent);
    TwoTexts(v);
    assert AgentOutcomes(turn.items) == Outcomes(v);
    c := AfterTurn(NOTHING, turn);
    later, there := AgreeingIsNeeded(turn, c);
    ReplayNothing();
    ReplayOne([], Polled(turn));
    assert [] + [Polled(turn)] == [Polled(turn)];
  }

  lemma PreferredAreLong(key: string)
    requires key in PREFERRED
    ensures |key| >= 4
  {
    assert PREFERRED == ["text", "content", "message", "output", "value"];
  }

  lemma TwoTexts(v: Json)
    requires v == Obj(map["a" := Str("hi"), "b" := Str("ho")])
    ensures Outcomes(v) != {""} && !Settled(Outcomes(v))
  {
    hide Outcomes, FirstOutcomes;
    var a, b, hi, ho := "a", "b", "hi", "ho";
    PlainOutcome(hi);
    PlainOutcome(ho);
    assert hi != ho by { assert hi[1] != ho[1]; }
    assert |a| == |b| == 1 && v.fields.Keys == {a, b};
    forall key | key in PREFERRED ensures key !in v.fields { PreferredAreLong(key); }
    FirstOutcomesFrom(v, PREFERRED);
    assert v.fields[a] == Str(hi) && v.fields[b] == Str(ho);
    OtherOutcomes(v, a, hi);
    OtherOutcomes(v, b, ho);
  }

  lemma PlainOutcome(s: string)
    requires |s| == 2 && Trimmed(s)
    ensures Outcomes(Str(s)) == {s}
  {
    var order := AnyOrder();
    ShortText(s, order);
    hide StripCodeFence, TrimSpace;
  }

  lemma OtherOutcomes(v: Json, key: string, text: string)
    requires v.Obj? && FirstOutcomes(v, PREFERRED) == {""}
    requires key in v.fields && text in Outcomes(v.fields[key]) && text != ""
    ensures text in Outcomes(v)
  {
  }
}
