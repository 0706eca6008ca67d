/** The output collector (output.go) and the result of a turn (turn.go, SessionThread.Run in thread.go). */
module Collector {
  import opened Wrappers
  import opened Jsonx

  const AGENT_MESSAGE := "agentMessage"

  /** Payload bytes: none, bytes that are not JSON, or a decoded value. */
  datatype Payload = Absent | Undecodable | Decoded(v: Json)

  datatype Item = Item(id: string, kind: string, payload: Payload)

  datatype Turn = Turn(id: string, items: seq<Item>, status: string, usage: Option<nat>, raw: Payload)

  /** extractTextCandidate. */
  function Text(p: Payload, order: Order): string {
    if p.Decoded? then ExtractTextValue(p.v, [], order) else ""
  }

  // ----- mergeItems -----

  /** The position of the last item with this id, or -1. */
  function LastAt(items: seq<Item>, id: string): (k: int)
    ensures -1 <= k < |items|
    ensures k >= 0 ==> items[k].id == id
    ensures forall i :: k < i < |items| ==> items[i].id != id
  {
    if items == [] then -1
    else if items[|items| - 1].id == id then |items| - 1
    else LastAt(items[..|items| - 1], id)
  }

  /** Replace the last item with the same non-empty id, else append. */
  function MergeOne(items: seq<Item>, item: Item): seq<Item> {
    var k := LastAt(items, item.id);
    if item.id != "" && k >= 0 then items[k := item] else items + [item]
  }

  /** The simple merge: one linear search per incoming item. */
  function LinearMerge(existing: seq<Item>, incoming: seq<Item>): seq<Item> {
    if incoming == [] then existing
    else MergeOne(LinearMerge(existing, incoming[..|incoming| - 1]), incoming[|incoming| - 1])
  }

  /** What mergeItems returns: an empty list is replaced by `incoming` verbatim. */
  function Merge(existing: seq<Item>, incoming: seq<Item>): seq<Item> {
    if existing == [] then incoming else LinearMerge(existing, incoming)
  }

  /** `index` is the map from each non-empty id to its last position. */
  ghost predicate Indexes(index: map<string, nat>, items: seq<Item>) {
    forall id :: (id in index <==> id != "" && LastAt(items, id) >= 0)
        && (id in index ==> index[id] == LastAt(items, id))
  }

  lemma LastAtIs(items: seq<Item>, id: string, k: int)
    requires -1 <= k < |items| && (k >= 0 ==> items[k].id == id)
    requires forall i :: k < i < |items| ==> items[i].id != id
    ensures LastAt(items, id) == k
  {
  }

  lemma IndexAfterAppend(index: map<string, nat>, items: seq<Item>, item: Item)
    requires Indexes(index, items)
    ensures Indexes(if item.id != "" then index[item.id := |items|] else index, items + [item])
  {
    forall id ensures LastAt(items + [item], id) == if item.id == id then |items| else LastAt(items, id) {
      LastAtIs(items + [item], id, if item.id == id then |items| else LastAt(items, id));
    }
  }

  lemma IndexAfterReplace(index: map<string, nat>, items: seq<Item>, k: nat, item: Item)
    requires Indexes(index, items) && k < |items| && items[k].id == item.id
    ensures Indexes(index, items[k := item])
  {
    forall id ensures LastAt(items[k := item], id) == LastAt(items, id) {
      LastAtIs(items[k := item], id, LastAt(items, id));
    }
  }

  /** mergeItems, with its id-to-index map and in-place replacement. */
  method MergeItems(existing: seq<Item>, incoming: seq<Item>) returns (merged: seq<Item>)
    ensures merged == Merge(existing, incoming)
  {
    if existing == [] { return incoming; }
    merged := existing;
    var index: map<string, nat> := map[];
    for i := 0 to |merged|
      invariant Indexes(index, merged[..i])
    {
      IndexAfterAppend(index, merged[..i], merged[i]);
      assert merged[..i] + [merged[i]] == merged[..i + 1];
      if merged[i].id != "" { index := index[merged[i].id := i]; }
    }
    assert merged[..|merged|] == merged;
    for i := 0 to |incoming|
      invariant merged == LinearMerge(existing, incoming[..i])
      invariant Indexes(index, merged)
    {
      var item := incoming[i];
      assert incoming[..i + 1][..i] == incoming[..i];
      if item.id != "" && item.id in index {
        IndexAfterReplace(index, merged, index[item.id], item);
        merged := merged[index[item.id] := item];
      } else {
        IndexAfterAppend(index, merged, item);
        if item.id != "" { index := index[item.id := |merged|]; }
        merged := merged + [item];
      }
    }
    assert incoming[..|incoming|] == incoming;
  }

  // ----- What merging keeps -----

  lemma {:induction false} MergeKeepsPositions(existing: seq<Item>, incoming: seq<Item>)
    ensures |existing| <= |LinearMerge(existing, incoming)| <= |existing| + |incoming|
    ensures forall i :: 0 <= i < |existing| ==> LinearMerge(existing, incoming)[i].id == existing[i].id
  {
    if incoming == [] {
    } else {
      MergeKeepsPositions(existing, incoming[..|incoming| - 1]);
    }
  }

  predicate AllNamed(items: seq<Item>) {
    forall i :: 0 <= i < |items| ==> items[i].id != ""
  }

  predicate DistinctIds(items: seq<Item>) {
    forall i, j :: 0 <= i < j < |items| && items[i].id != "" ==> items[i].id != items[j].id
  }

  lemma DistinctStep(items: seq<Item>, item: Item)
    ensures DistinctIds(items + [item]) <==> DistinctIds(items) && (item.id == "" || LastAt(items, item.id) < 0)
  {
    var all := items + [item];
    var k := LastAt(items, item.id);
    assert k >= 0 ==> all[k].id == all[|items|].id;
    if DistinctIds(all) {
      forall i, j | 0 <= i < j < |items| && items[i].id != "" ensures items[i].id != items[j].id {
        assert all[i].id != all[j].id;
      }
    }
  }

  lemma {:induction false} LinearIntoEmpty(incoming: seq<Item>)
    ensures |LinearMerge([], incoming)| <= |incoming|
    ensures LinearMerge([], incoming) == incoming <==> DistinctIds(incoming)
  {
    if incoming == [] {
    } else {
      var n := |incoming| - 1;
      LinearIntoEmpty(incoming[..n]);
      assert incoming == incoming[..n] + [incoming[n]];
      DistinctStep(incoming[..n], incoming[n]);
      hide DistinctIds, LastAt;
      var m := LinearMerge([], incoming[..n]);
      assert |m| == n && MergeOne(m, incoming[n])[..n] == incoming[..n] ==>
          |MergeOne(m, incoming[n])| == n || m == incoming[..n];
    }
  }

  /**
   mergeItems is the simple merge for every non-empty `existing`; for an empty one, exactly when no
   non-empty id repeats.
   */
  lemma MergeIsLinear(existing: seq<Item>, incoming: seq<Item>)
    ensures Merge(existing, incoming) == LinearMerge(existing, incoming) <==> existing != [] || DistinctIds(incoming)
  {
    if existing == [] { LinearIntoEmpty(incoming); }
  }

  /** The most recent version of an id in a list. */
  function Latest(items: seq<Item>, id: string): Option<Item> {
    var k := LastAt(items, id);
    if k >= 0 then Some(items[k]) else None
  }

  lemma LatestAfterOne(items: seq<Item>, item: Item, id: string)
    requires id != ""
    ensures Latest(MergeOne(items, item), id) == if item.id == id then Some(item) else Latest(items, id)
    ensures Latest(items + [item], id) == if item.id == id then Some(item) else Latest(items, id)
  {
    LastAtIs(items + [item], id, if item.id == id then |items| else LastAt(items, id));
    var k := LastAt(items, item.id);
    if item.id != "" && k >= 0 { LastAtIs(items[k := item], id, LastAt(items, id)); }
  }

  /** For every non-empty id, merging leaves the version that appending would leave last. */
  lemma {:induction false} LatestAfterMerge(existing: seq<Item>, incoming: seq<Item>, id: string)
    requires id != ""
    ensures Latest(LinearMerge(existing, incoming), id) == Latest(existing + incoming, id)
  {
    if incoming == [] {
      assert existing + incoming == existing;
    } else {
      var n := |incoming| - 1;
      LatestAfterMerge(existing, incoming[..n], id);
      LatestAfterOne(LinearMerge(existing, incoming[..n]), incoming[n], id);
      LatestAfterOne(existing + incoming[..n], incoming[n], id);
      assert existing + incoming == existing + incoming[..n] + [incoming[n]];
    }
  }

  lemma LatestOfConcat(xs: seq<Item>, ys: seq<Item>, id: string)
    ensures Latest(xs + ys, id) == if LastAt(ys, id) >= 0 then Latest(ys, id) else Latest(xs, id)
  {
    hide LastAt;
    var all, k := xs + ys, LastAt(ys, id);
    var at := if k >= 0 then |xs| + k else LastAt(xs, id);
    forall i | at < i < |all| ensures all[i].id != id {
      if i >= |xs| { assert all[i] == ys[i - |xs|]; } else { assert all[i] == xs[i]; }
    }
    LastAtIs(all, id, at);
  }

  /** Merging ids that are all there already replaces last occurrences and nothing else. */
  lemma {:induction false} MergeReplaces(items: seq<Item>, incoming: seq<Item>)
    requires AllNamed(incoming) && forall i :: 0 <= i < |incoming| ==> LastAt(items, incoming[i].id) >= 0
    ensures var m := LinearMerge(items, incoming);
            && |m| == |items|
            && (forall id :: LastAt(m, id) == LastAt(items, id))
            && (forall k :: 0 <= k < |items| ==>
                m[k].id == items[k].id && (k != LastAt(items, items[k].id) ==> m[k] == items[k]))
  {
    if incoming == [] {
    } else {
      var n := |incoming| - 1;
      MergeReplaces(items, incoming[..n]);
      var m, k := LinearMerge(items, incoming[..n]), LastAt(items, incoming[n].id);
      forall id ensures LastAt(m[k := incoming[n]], id) == LastAt(m, id) {
        LastAtIs(m[k := incoming[n]], id, LastAt(m, id));
      }
    }
  }

  lemma {:induction false} UnnamedGrows(items: seq<Item>, incoming: seq<Item>)
    requires !AllNamed(incoming)
    ensures |LinearMerge(items, incoming)| > |items|
  {
    var n := |incoming| - 1;
    MergeKeepsPositions(items, incoming[..n]);
    if incoming[n].id != "" {
      var i :| 0 <= i < |incoming| && incoming[i].id == "";
      assert incoming[..n][i].id == "";
      UnnamedGrows(items, incoming[..n]);
    }
  }

  lemma LatestInMerge(existing: seq<Item>, incoming: seq<Item>, id: string)
    requires id != ""
    ensures Latest(Merge(existing, incoming), id) == Latest(existing + incoming, id)
  {
    if existing == [] {
      assert existing + incoming == incoming;
    } else {
      LatestAfterMerge(existing, incoming, id);
    }
  }

  /** Merging the same list again changes nothing exactly when all its ids are non-empty. */
  lemma RemergeIsIdle(existing: seq<Item>, incoming: seq<Item>)
    ensures Merge(Merge(existing, incoming), incoming) == Merge(existing, incoming) <==> AllNamed(incoming)
  {
    var m := Merge(existing, incoming);
    if !AllNamed(incoming) {
      MergeKeepsPositions(existing, incoming);
      UnnamedGrows(m, incoming);
    } else if incoming != [] {
      forall i | 0 <= i < |incoming| ensures LastAt(incoming, incoming[i].id) >= 0 && LastAt(m, incoming[i].id) >= 0 {
        LatestInMerge(existing, incoming, incoming[i].id);
        LatestOfConcat(existing, incoming, incoming[i].id);
      }
      MergeReplaces(m, incoming);
      var m' := LinearMerge(m, incoming);
      forall k | 0 <= k < |m| ensures m'[k] == m[k] {
        var id := m[k].id;
        if k == LastAt(m, id) {
          if id != "" {
            LatestAfterMerge(m, incoming, id);
            LatestOfConcat(m, incoming, id);
            LatestInMerge(existing, incoming, id);
            LatestOfConcat(existing, incoming, id);
          } else {
            UnnamedStays(m, incoming, k);
          }
        }
      }
      MergeKeepsPositions(existing, incoming);
    }
  }

  lemma {:induction false} UnnamedStays(items: seq<Item>, incoming: seq<Item>, k: nat)
    requires AllNamed(incoming) && k < |items| && items[k].id == ""
    ensures k < |LinearMerge(items, incoming)| && LinearMerge(items, incoming)[k] == items[k]
  {
    if incoming == [] {
    } else {
      UnnamedStays(items, incoming[..|incoming| - 1], k);
    }
  }

  // ----- The collector -----

  datatype Collected =
      Collected(turn: Option<Turn>, items: seq<Item>, payloads: seq<Payload>, deltas: seq<string>, usage: Option<nat>)

  const NOTHING := Collected(None, [], [], [], None)

  /**
   One captureTurn or captureEvent call. A delta comes with the order in which maps are iterated when
   its parameters are searched for text; Ignored is an event value captureEvent has no case for.
   */
  datatype Capture =
    | Polled(turn: Turn)
    | ItemDone(item: Option<Item>)
    | Delta(text: string, raw: Payload, order: Order)
    | TurnDone(done: Option<Turn>, usage: Option<nat>)
    | Ignored

  function KeepPayload(payloads: seq<Payload>, p: Payload): seq<Payload> {
    if p.Absent? then payloads else payloads + [p]
  }

  function KeepPayloads(payloads: seq<Payload>, items: seq<Item>): seq<Payload> {
    if items == [] then payloads
    else KeepPayload(KeepPayloads(payloads, items[..|items| - 1]), items[|items| - 1].payload)
  }

  /** The payloads of a list of items, in order, without the empty ones. */
  function Kept(items: seq<Item>): seq<Payload> {
    if items == [] then []
    else (if items[0].payload.Absent? then [] else [items[0].payload]) + Kept(items[1..])
  }

  lemma {:induction false} KeptSnoc(items: seq<Item>, item: Item)
    ensures Kept(items + [item]) == Kept(items) + if item.payload.Absent? then [] else [item.payload]
  {
    if items == [] {
      assert [item][1..] == [];
    } else {
      assert (items + [item])[1..] == items[1..] + [item];
      KeptSnoc(items[1..], item);
    }
  }

  lemma {:induction false} KeepsInOrder(payloads: seq<Payload>, items: seq<Item>)
    ensures KeepPayloads(payloads, items) == payloads + Kept(items)
  {
    if items == [] {
    } else {
      var n := |items| - 1;
      KeepsInOrder(payloads, items[..n]);
      KeptSnoc(items[..n], items[n]);
      assert items == items[..n] + [items[n]];
    }
  }

  function AfterTurn(c: Collected, turn: Turn): Collected {
    c.(turn := Some(turn), items := Merge(c.items, turn.items),
       payloads := KeepPayload(KeepPayloads(c.payloads, turn.items), turn.raw))
  }

  function After(c: Collected, op: Capture): Collected {
    match op
    case Polled(turn) => AfterTurn(c, turn)
    case ItemDone(Some(item)) => c.(items := c.items + [item], payloads := KeepPayload(c.payloads, item.payload))
    case ItemDone(None) => c
    case Delta(text, raw, order) =>
      var t := FirstNonEmpty(text, Text(raw, order));
      if t != "" then c.(deltas := c.deltas + [t]) else c
    case TurnDone(done, usage) =>
      var d := if done.Some? then AfterTurn(c, done.value) else c;
      if usage.Some? then d.(usage := usage) else d
    case Ignored => c
  }

  function Replay(ops: seq<Capture>): Collected {
    if ops == [] then NOTHING else After(Replay(ops[..|ops| - 1]), ops[|ops| - 1])
  }

  lemma ReplayOne(ops: seq<Capture>, op: Capture)
    ensures Replay(ops + [op]) == After(Replay(ops), op)
  {
    assert (ops + [op])[..|ops|] == ops;
  }

  lemma ReplayNothing()
    ensures Replay([]) == NOTHING
  {
  }

  /** The payloads a capture adds. */
  function PayloadsOf(op: Capture): seq<Payload> {
    match op
    case Polled(turn) => Kept(turn.items) + if turn.raw.Absent? then [] else [turn.raw]
    case ItemDone(Some(item)) => if item.payload.Absent? then [] else [item.payload]
    case TurnDone(Some(turn), _) => Kept(turn.items) + if turn.raw.Absent? then [] else [turn.raw]
    case _ => []
  }

  /** The delta text a capture adds: the delta's own text unless it is all space, else text found in its parameters. */
  function DeltasOf(op: Capture): seq<string> {
    match op
    case Delta(text, raw, order) =>
      if !Blank(text) then [text]
      else if Text(raw, order) != "" && !Blank(Text(raw, order)) then [Text(raw, order)]
      else []
    case _ => []
  }

  /** What a capture does to the parts of the collector, said outright. */
  lemma CaptureEffect(c: Collected, op: Capture)
    ensures After(c, op).payloads == c.payloads + PayloadsOf(op)
    ensures After(c, op).deltas == c.deltas + DeltasOf(op)
    ensures After(c, op).usage == if op.TurnDone? && op.usage.Some? then op.usage else c.usage
    ensures After(c, op).turn ==
        match op case Polled(t) => Some(t) case TurnDone(Some(t), _) => Some(t) case _ => c.turn
    ensures After(c, op).items == match op
                                  case Polled(t) => Merge(c.items, t.items)
                                  case ItemDone(Some(item)) => c.items + [item]
                                  case TurnDone(Some(t), _) => Merge(c.items, t.items)
                                  case _ => c.items
  {
    hide Merge, Blank, TrimSpace, Text, KeepPayloads, Kept;
    match op
    case Polled(t) => KeepsInOrder(c.payloads, t.items);
    case TurnDone(Some(t), _) => KeepsInOrder(c.payloads, t.items);
    case Delta(text, raw, order) =>
      FirstVisible(text, Text(raw, order));
      assert Blank("") by { EmptyIsBlank(); }
    case _ =>
  }

  lemma EmptyIsBlank()
    ensures Blank("")
  {
  }

  /** The items a capture shows the collector, in order. */
  function Shows(op: Capture): seq<Item> {
    match op
    case Polled(turn) => turn.items
    case ItemDone(Some(item)) => [item]
    case TurnDone(Some(turn), _) => turn.items
    case _ => []
  }

  function Observed(ops: seq<Capture>): seq<Item> {
    if ops == [] then [] else Observed(ops[..|ops| - 1]) + Shows(ops[|ops| - 1])
  }

  lemma LatestAfterCapture(c: Collected, op: Capture, id: string)
    requires id != ""
    ensures Latest(After(c, op).items, id) == Latest(c.items + Shows(op), id)
  {
    LatestInMerge(c.items, Shows(op), id);
    assert c.items + [] == c.items;
    hide Merge, Latest;
  }

  /**
   After any captures, a non-empty id is in `items` exactly when it was observed, and its last
   occurrence there is the version observed most recently.
   */
  lemma {:induction false} MostRecentVersion(ops: seq<Capture>, id: string)
    requires id != ""
    ensures Latest(Replay(ops).items, id) == Latest(Observed(ops), id)
  {
    if ops == [] {
    } else {
      var n := |ops| - 1;
      var c, op := Replay(ops[..n]), ops[n];
      MostRecentVersion(ops[..n], id);
      LatestAfterCapture(c, op, id);
      LatestOfConcat(Observed(ops[..n]), Shows(op), id);
      LatestOfConcat(c.items, Shows(op), id);
      hide Latest, After;
    }
  }

  // ----- Final text -----

  /** The text of the last agent message that has any. */
  function AgentText(items: seq<Item>, order: Order): string {
    if items == [] then ""
    else
      var last := items[|items| - 1];
      var text := if last.kind == AGENT_MESSAGE then Text(last.payload, order) else "";
      if text != "" then text else AgentText(items[..|items| - 1], order)
  }

  function PayloadText(payloads: seq<Payload>, order: Order): string {
    if payloads == [] then ""
    else
      var text := Text(payloads[|payloads| - 1], order);
      if text != "" then text else PayloadText(payloads[..|payloads| - 1], order)
  }

  function Join(parts: seq<string>): string {
    if parts == [] then "" else Join(parts[..|parts| - 1]) + parts[|parts| - 1]
  }

  function FinalAgentMessage(c: Collected, turn: Turn, order: Order): string {
    if AgentText(turn.items, order) != "" then AgentText(turn.items, order)
    else if AgentText(c.items, order) != "" then AgentText(c.items, order)
    else if c.deltas != [] then Join(c.deltas)
    else PayloadText(c.payloads, order)
  }

  datatype TurnResult = TurnResult(turn: Turn, items: seq<Item>, usage: Option<nat>, deltaText: string)

  function FinalAgentText(r: TurnResult, order: Order): string {
    if AgentText(r.items, order) != "" then TrimSpace(AgentText(r.items, order))
    else if AgentText(r.turn.items, order) != "" then TrimSpace(AgentText(r.turn.items, order))
    else TrimSpace(r.deltaText)
  }

  /** The result SessionThread.Run builds from the completed turn and the collector. */
  function RunResult(turn: Turn, c: Collected, order: Order): TurnResult {
    var items := if turn.items == [] then c.items else turn.items;
    var r := TurnResult(turn, items, if turn.usage.None? then c.usage else turn.usage, "");
    if FinalAgentText(r, order) == "" then r.(deltaText := Join(c.deltas)) else r
  }

  lemma {:induction false} AgentTextTrimmed(items: seq<Item>, order: Order)
    requires ValidOrder(order)
    ensures TrimSpace(AgentText(items, order)) == AgentText(items, order)
  {
    if items == [] {
    } else {
      AgentTextTrimmed(items[..|items| - 1], order);
      var p := items[|items| - 1].payload;
      if p.Decoded? { ExtractIsTrimmed(p.v, [], order); }
    }
  }

  lemma {:induction false} PayloadTextTrimmed(payloads: seq<Payload>, order: Order)
    requires ValidOrder(order)
    ensures TrimSpace(PayloadText(payloads, order)) == PayloadText(payloads, order)
  {
    if payloads == [] {
    } else {
      PayloadTextTrimmed(payloads[..|payloads| - 1], order);
      var p := payloads[|payloads| - 1];
      if p.Decoded? { ExtractIsTrimmed(p.v, [], order); }
    }
  }

  /** The loop of finalAgentMessage and FinalAgentText over one list of items. */
  method ScanAgentText(items: seq<Item>, order: Order) returns (text: string)
    ensures text == AgentText(items, order)
  {
    hide Text;
    assert items[..|items|] == items;
    for i := |items| downto 0
      invariant AgentText(items, order) == AgentText(items[..i], order)
    {
      assert items[..i + 1][..i] == items[..i];
      if items[i].kind == AGENT_MESSAGE {
        text := Text(items[i].payload, order);
        if text != "" { return; }
      }
    }
    text := "";
  }

  class OutputCollector {
    var turn: Option<Turn>
    var items: seq<Item>
    var itemPayloads: seq<Payload>
    var agentTextDeltas: seq<string>
    var eventUsage: Option<nat>

    function View(): Collected
      reads this
    {
      Collected(turn, items, itemPayloads, agentTextDeltas, eventUsage)
    }

    constructor ()
      ensures View() == NOTHING
    {
      turn, items, itemPayloads, agentTextDeltas, eventUsage := None, [], [], [], None;
    }

    method CaptureTurn(t: Turn)
      modifies this
      ensures View() == AfterTurn(old(View()), t)
      ensures turn == Some(t) && items == Merge(old(items), t.items)
      ensures itemPayloads == old(itemPayloads) + Kept(t.items) + if t.raw.Absent? then [] else [t.raw]
      ensures agentTextDeltas == old(agentTextDeltas) && eventUsage == old(eventUsage)
    {
      KeepsInOrder(itemPayloads, t.items);
      turn := Some(t);
      items := MergeItems(items, t.items);
      for i := 0 to |t.items|
        invariant View() == old(View()).(turn := Some(t), items := Merge(old(items), t.items), payloads := itemPayloads)
        invariant itemPayloads == KeepPayloads(old(itemPayloads), t.items[..i])
      {
        assert t.items[..i + 1][..i] == t.items[..i];
        if !t.items[i].payload.Absent? { itemPayloads := itemPayloads + [t.items[i].payload]; }
      }
      assert t.items[..|t.items|] == t.items;
      if !t.raw.Absent? { itemPayloads := itemPayloads + [t.raw]; }
    }

    method CaptureEvent(op: Capture)
      requires !op.Polled?
      modifies this
      ensures View() == After(old(View()), op)
      ensures op.ItemDone? || op.Delta? || op.Ignored? ==> turn == old(turn) && eventUsage == old(eventUsage)
      ensures items == if op.ItemDone? && op.item.Some? then old(items) + [op.item.value]
                       else if op.TurnDone? && op.done.Some? then Merge(old(items), op.done.value.items)
                       else old(items)
      ensures itemPayloads == old(itemPayloads) + PayloadsOf(op)
      ensures agentTextDeltas == old(agentTextDeltas) + DeltasOf(op)
      ensures op.TurnDone? ==> turn == (if op.done.Some? then op.done else old(turn))
      ensures op.TurnDone? ==> eventUsage == if op.usage.Some? then op.usage else old(eventUsage)
    {
      CaptureEffect(View(), op);
      hide Merge, Blank, TrimSpace, Text, KeepPayloads, Kept;
      match op
      case ItemDone(Some(item)) =>
        items := items + [item];
        if !item.payload.Absent? { itemPayloads := itemPayloads + [item.payload]; }
      case ItemDone(None) =>
      case Delta(text, raw, order) =>
        var t := FirstNonEmpty(text, Text(raw, order));
        if t != "" { agentTextDeltas := agentTextDeltas + [t]; }
      case TurnDone(done, usage) =>
        if done.Some? { CaptureTurn(done.value); }
        if usage.Some? { eventUsage := usage; }
      case Ignored =>
      case Polled(_) =>
    }

    method Message(t: Turn, order: Order) returns (text: string)
      ensures text == FinalAgentMessage(View(), t, order)
    {
      text := ScanAgentText(t.items, order);
      if text != "" { return; }
      text := ScanAgentText(items, order);
      if text != "" { return; }
      if agentTextDeltas != [] { return Join(agentTextDeltas); }
      assert itemPayloads[..|itemPayloads|] == itemPayloads;
      for i := |itemPayloads| downto 0
        invariant PayloadText(itemPayloads, order) == PayloadText(itemPayloads[..i], order)
      {
        assert itemPayloads[..i + 1][..i] == itemPayloads[..i];
        text := Text(itemPayloads[i], order);
        if text != "" { return; }
      }
      text := "";
    }
  }
}
