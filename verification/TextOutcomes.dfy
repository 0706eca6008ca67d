/**
 Every text that extraction from a tree can give, over all the orders in which maps may be iterated
 (internal/jsonx/jsonx.go). Go picks the order anew at each range over a map.
 */
module TextOutcomes {
  import opened Jsonx

  /** {""} when the tree has no text. */
  function Outcomes(v: Json): (r: set<string>)
    ensures r != {} && ("" in r ==> r == {""})
    decreases v, 1
  {
    match v
    case Str(s) => {TrimSpace(StripCodeFence(s))}
    case Arr(items) => LastOutcomes(items)
    case Obj(fields) =>
      var preferred := FirstOutcomes(v, PREFERRED);
      if preferred != {""} then preferred
      else
        var others := set key, text | key in v.fields && text in Outcomes(v.fields[key]) && text != "" :: text;
        if others == {} then {""} else others
    case _ => {""}
  }

  /** Those of the last element that has text. */
  function LastOutcomes(items: seq<Json>): (r: set<string>)
    ensures r != {} && ("" in r ==> r == {""})
    decreases items
  {
    if items == [] then {""}
    else
      var last := Outcomes(items[|items| - 1]);
      if last != {""} then last else LastOutcomes(items[..|items| - 1])
  }

  /** Those of the first of these keys that has text. */
  function FirstOutcomes(v: Json, keys: seq<string>): (r: set<string>)
    requires v.Obj?
    ensures r != {} && ("" in r ==> r == {""})
    decreases v, 0, |keys|
  {
    if keys == [] then {""}
    else
      var first := if keys[0] in v.fields then Outcomes(v.fields[keys[0]]) else {""};
      if first != {""} then first else FirstOutcomes(v, keys[1..])
  }

  /** A caller can see that the order of maps does not matter: only one text is possible. */
  predicate Settled(texts: set<string>) {
    forall a, b :: a in texts && b in texts ==> a == b
  }

  // ----- Every extraction gives one of them -----

  lemma {:induction false} FirstOutcomesFrom(v: Json, keys: seq<string>)
    requires v.Obj?
    ensures FirstOutcomes(v, keys) == {""} <==> forall key :: key in keys && key in v.fields ==>
        Outcomes(v.fields[key]) == {""}
    ensures FirstOutcomes(v, keys) != {""} ==>
        exists key :: key in keys && key in v.fields && FirstOutcomes(v, keys) == Outcomes(v.fields[key])
    decreases |keys|
  {
    hide Outcomes;
    if keys == [] {
    } else {
      FirstOutcomesFrom(v, keys[1..]);
      assert forall key :: key in keys <==> key == keys[0] || key in keys[1..];
    }
  }

  lemma {:induction false} ExtractIsOutcome(v: Json, path: seq<nat>, order: Order)
    requires ValidOrder(order)
    ensures ExtractTextValue(v, path, order) in Outcomes(v)
    decreases v, 1
  {
    hide StripCodeFence, TrimSpace;
    match v
    case Arr(items) => LastIsOutcome(items, path, order);
    case Obj(fields) =>
      var keys := order(path, fields);
      FirstIsOutcome(v, PREFERRED, path + [0], order);
      FirstIsOutcome(v, keys, path + [1], order);
      FirstOutcomesFrom(v, keys);
      hide FirstText, FirstOutcomes;
    case _ =>
  }

  lemma {:induction false} LastIsOutcome(items: seq<Json>, path: seq<nat>, order: Order)
    requires ValidOrder(order)
    ensures LastText(items, path, order) in LastOutcomes(items)
    decreases items
  {
    hide ExtractTextValue, Outcomes;
    if items == [] {
    } else {
      ExtractIsOutcome(items[|items| - 1], path + [|items|], order);
      LastIsOutcome(items[..|items| - 1], path, order);
    }
  }

  lemma {:induction false} FirstIsOutcome(v: Json, keys: seq<string>, path: seq<nat>, order: Order)
    requires v.Obj? && ValidOrder(order)
    ensures FirstText(v, keys, path, order) in FirstOutcomes(v, keys)
    decreases v, 0, |keys|
  {
    hide ExtractTextValue, Outcomes;
    if keys == [] {
    } else {
      if keys[0] in v.fields { ExtractIsOutcome(v.fields[keys[0]], path + [|keys|], order); }
      FirstIsOutcome(v, keys[1..], path, order);
    }
  }

  // ----- Every one of them is given by some order -----

  ghost function KeysOf(keys: set<string>): (r: seq<string>)
    ensures forall key :: key in r <==> key in keys
  {
    if keys == {} then []
    else
      var key :| key in keys;
      [key] + KeysOf(keys - {key})
  }

  /** Extraction from a subtree only asks for the order of maps at its own path and below. */
  lemma {:induction false} OrderBelow(v: Json, path: seq<nat>, order: Order, other: Order)
    requires forall p, m :: |p| >= |path| ==> order(p, m) == other(p, m)
    ensures ExtractTextValue(v, path, order) == ExtractTextValue(v, path, other)
    decreases v, 1
  {
    hide StripCodeFence, TrimSpace;
    match v
    case Arr(items) => OrderBelowLast(items, path, order, other);
    case Obj(fields) =>
      OrderBelowFirst(v, PREFERRED, path + [0], order, other);
      OrderBelowFirst(v, order(path, fields), path + [1], order, other);
      hide FirstText;
    case _ =>
  }

  lemma {:induction false} OrderBelowLast(items: seq<Json>, path: seq<nat>, order: Order, other: Order)
    requires forall p, m :: |p| >= |path| ==> order(p, m) == other(p, m)
    ensures LastText(items, path, order) == LastText(items, path, other)
    decreases items
  {
    hide ExtractTextValue;
    if items == [] {
    } else {
      OrderBelow(items[|items| - 1], path + [|items|], order, other);
      OrderBelowLast(items[..|items| - 1], path, order, other);
    }
  }

  lemma {:induction false} OrderBelowFirst(v: Json, keys: seq<string>, path: seq<nat>, order: Order, other: Order)
    requires v.Obj? && forall p, m :: |p| >= |path| ==> order(p, m) == other(p, m)
    ensures FirstText(v, keys, path, order) == FirstText(v, keys, path, other)
    decreases v, 0, |keys|
  {
    hide ExtractTextValue;
    if keys == [] {
    } else {
      if keys[0] in v.fields { OrderBelow(v.fields[keys[0]], path + [|keys|], order, other); }
      OrderBelowFirst(v, keys[1..], path, order, other);
    }
  }

  lemma AnyOrder() returns (order: Order)
    ensures ValidOrder(order)
  {
    order := (p: seq<nat>, m: map<string, Json>) => KeysOf(m.Keys);
  }

  lemma {:induction false} Realize(v: Json, text: string, path: seq<nat>) returns (order: Order)
    requires text in Outcomes(v)
    ensures ValidOrder(order) && ExtractTextValue(v, path, order) == text
    decreases v, 1
  {
    hide StripCodeFence, TrimSpace;
    match v
    case Arr(items) => order := RealizeLast(items, text, path);
    case Obj(fields) =>
      if FirstOutcomes(v, PREFERRED) != {""} {
        order := RealizeFirst(v, PREFERRED, text, path + [0]);
      } else if text == "" {
        order := AnyOrder();
        ExtractIsOutcome(v, path, order);
      } else {
        var key :| key in v.fields && text in Outcomes(v.fields[key]);
        order := RealizeOther(v, key, text, path);
      }
    case _ => order := AnyOrder();
  }

  lemma {:induction false} RealizeLast(items: seq<Json>, text: string, path: seq<nat>) returns (order: Order)
    requires text in LastOutcomes(items)
    ensures ValidOrder(order) && LastText(items, path, order) == text
    decreases items
  {
    hide ExtractTextValue, Outcomes;
    if items == [] {
      order := AnyOrder();
    } else if Outcomes(items[|items| - 1]) != {""} {
      order := Realize(items[|items| - 1], text, path + [|items|]);
    } else {
      order := RealizeLast(items[..|items| - 1], text, path);
      ExtractIsOutcome(items[|items| - 1], path + [|items|], order);
    }
  }

  lemma {:induction false} RealizeFirst(v: Json, keys: seq<string>, text: string, path: seq<nat>) returns (order: Order)
    requires v.Obj? && text in FirstOutcomes(v, keys)
    ensures ValidOrder(order) && FirstText(v, keys, path, order) == text
    decreases v, 0, |keys|
  {
    hide ExtractTextValue, Outcomes;
    if keys == [] {
      order := AnyOrder();
    } else if keys[0] in v.fields && Outcomes(v.fields[keys[0]]) != {""} {
      order := Realize(v.fields[keys[0]], text, path + [|keys|]);
    } else {
      order := RealizeFirst(v, keys[1..], text, path);
      if keys[0] in v.fields { ExtractIsOutcome(v.fields[keys[0]], path + [|keys|], order); }
    }
  }

  /** Any key with text can come first. */
  lemma {:induction false} RealizeOther(v: Json, key: string, text: string, path: seq<nat>) returns (order: Order)
    requires v.Obj? && FirstOutcomes(v, PREFERRED) == {""}
    requires key in v.fields && text in Outcomes(v.fields[key]) && text != ""
    ensures ValidOrder(order) && ExtractTextValue(v, path, order) == text
    decreases v, 0
  {
    var keys := [key] + KeysOf(v.fields.Keys);
    var below := path + [1] + [|keys|];
    var inner := Realize(v.fields[key], text, below);
    order := (p: seq<nat>, m: map<string, Json>) => if p == path && m == v.fields then keys else inner(p, m);
    FirstIsOutcome(v, PREFERRED, path + [0], order);
    OrderBelow(v.fields[key], below, inner, order);
    hide Outcomes, FirstOutcomes;
    assert FirstText(v, keys, path + [1], order) == text;
  }

  /** Exactly the texts of `Outcomes` can be extracted. */
  lemma OutcomesAreExact(v: Json, text: string, path: seq<nat>)
    ensures text in Outcomes(v) <==>
        exists order: Order :: ValidOrder(order) && ExtractTextValue(v, path, order) == text
  {
    if text in Outcomes(v) { var order := Realize(v, text, path); }
    forall order: Order | ValidOrder(order) ensures ExtractTextValue(v, path, order) in Outcomes(v) {
      ExtractIsOutcome(v, path, order);
    }
  }

  /** A tree gives one text, wherever it stands and however maps are iterated, exactly when it is settled. */
  lemma SettledExactly(v: Json)
    ensures Settled(Outcomes(v)) <==>
            forall p, q, order: Order, other: Order :: ValidOrder(order) && ValidOrder(other) ==>
              ExtractTextValue(v, p, order) == ExtractTextValue(v, q, other)
  {
    hide Outcomes, ExtractTextValue;
    forall p, order: Order | ValidOrder(order) ensures ExtractTextValue(v, p, order) in Outcomes(v) {
      ExtractIsOutcome(v, p, order);
    }
    if !Settled(Outcomes(v)) {
      var a, b :| a in Outcomes(v) && b in Outcomes(v) && a != b;
      var nowhere: seq<nat> := [];
      var order := Realize(v, a, nowhere);
      var other := Realize(v, b, nowhere);
      assert ExtractTextValue(v, nowhere, order) != ExtractTextValue(v, nowhere, other);
    }
  }

  /** No two members have different texts. */
  ghost predicate MembersAgree(v: Json)
    requires v.Obj?
  {
    forall a, b, s, t ::
      (a in v.fields && s in Outcomes(v.fields[a]) && s != "" && b in v.fields && t in Outcomes(v.fields[b])
          && t != "") ==>
        s == t
  }

  lemma OtherMembers(v: Json)
    requires v.Obj? && FirstOutcomes(v, PREFERRED) == {""}
    ensures Settled(Outcomes(v)) <==> MembersAgree(v)
  {
    forall key, text | key in v.fields && text in Outcomes(v.fields[key]) && text != "" ensures text in Outcomes(v) {}
    forall text | text in Outcomes(v) && text != ""
        ensures exists key :: key in v.fields && text in Outcomes(v.fields[key]) {}
    if MembersAgree(v) {
      forall s, t | s in Outcomes(v) && t in Outcomes(v) ensures s == t {
        if s != "" && t != "" {
          var a :| a in v.fields && s in Outcomes(v.fields[a]);
          var b :| b in v.fields && t in Outcomes(v.fields[b]);
        }
      }
    } else {
      var a, b, s, t :|
        && a in v.fields && s in Outcomes(v.fields[a]) && s != ""
        && b in v.fields && t in Outcomes(v.fields[b]) && t != "" && s != t;
      assert s in Outcomes(v) && t in Outcomes(v);
    }
  }

  /**
   Extraction from an object with no text under a preferred key ignores the order of maps exactly
   when its members, extracted each on its own under any orders, have no two different texts.
   */
  lemma ObjectIgnoresOrder(v: Json)
    requires v.Obj? && forall key :: key in PREFERRED && key in v.fields ==> Outcomes(v.fields[key]) == {""}
    ensures
      (forall p, q, order: Order, other: Order :: ValidOrder(order) && ValidOrder(other) ==>
         ExtractTextValue(v, p, order) == ExtractTextValue(v, q, other))
      <==>
      (forall a, b, p, q, order: Order, other: Order ::
         (a in v.fields && b in v.fields && ValidOrder(order) && ValidOrder(other)
          && ExtractTextValue(v.fields[a], p, order) != "" && ExtractTextValue(v.fields[b], q, other) != "") ==>
           ExtractTextValue(v.fields[a], p, order) == ExtractTextValue(v.fields[b], q, other))
  {
    FirstOutcomesFrom(v, PREFERRED);
    OtherMembers(v);
    SettledExactly(v);
    hide Outcomes, FirstOutcomes, ExtractTextValue, ValidOrder;
    forall key, p, order: Order | key in v.fields && ValidOrder(order)
      ensures ExtractTextValue(v.fields[key], p, order) in Outcomes(v.fields[key])
    {
      ExtractIsOutcome(v.fields[key], p, order);
    }
    if !MembersAgree(v) {
      var a, b, s, t :|
        && a in v.fields && s in Outcomes(v.fields[a]) && s != ""
        && b in v.fields && t in Outcomes(v.fields[b]) && t != "" && s != t;
      var nowhere: seq<nat> := [];
      var order := Realize(v.fields[a], s, nowhere);
      var other := Realize(v.fields[b], t, nowhere);
      assert ExtractTextValue(v.fields[a], nowhere, order) != ExtractTextValue(v.fields[b], nowhere, other);
    }
  }
}
