/** Text extraction from decoded JSON trees (internal/jsonx/jsonx.go). */
module Jsonx {
  // ----- strings -----

  /** unicode.IsSpace. */
  predicate IsSpace(c: char) {
    var n := c as int;
    || 0x09 <= n <= 0x0d || n == 0x20 || n == 0x85 || n == 0xa0
    || n == 0x1680 || 0x2000 <= n <= 0x200a || n == 0x2028 || n == 0x2029 || n == 0x202f || n == 0x205f || n == 0x3000
  }

  function TrimLeft(s: string): (t: string)
    ensures t != "" ==> !IsSpace(t[0])
  {
    if s != "" && IsSpace(s[0]) then
      TrimLeft(s[1..])
    else s
  }

  function TrimRight(s: string): (t: string)
    ensures t <= s && (t != "" ==> !IsSpace(t[|t| - 1]))
  {
    if s != "" && IsSpace(s[|s| - 1]) then
      TrimRight(s[..|s| - 1])
    else s
  }

  predicate Trimmed(t: string) {
    t != "" ==> !IsSpace(t[0]) && !IsSpace(t[|t| - 1])
  }

  /** strings.TrimSpace. */
  function TrimSpace(s: string): (t: string)
    ensures Trimmed(t)
  {
    TrimRight(TrimLeft(s))
  }

  predicate Blank(s: string) {
    forall i :: 0 <= i < |s| ==> IsSpace(s[i])
  }

  lemma {:induction false} LeftPart(s: string)
    ensures |TrimLeft(s)| <= |s| && s == s[..|s| - |TrimLeft(s)|] + TrimLeft(s) && Blank(s[..|s| - |TrimLeft(s)|])
  {
    if s != "" && IsSpace(s[0]) {
      LeftPart(s[1..]);
      var cut := |s| - |TrimLeft(s)|;
      assert s[..cut] == [s[0]] + s[1..][..cut - 1];
    } else {
      assert s[..0] == "";
    }
  }

  lemma {:induction false} RightPart(s: string)
    ensures TrimRight(s) <= s && Blank(s[|TrimRight(s)|..])
  {
    if s != "" && IsSpace(s[|s| - 1]) {
      RightPart(s[..|s| - 1]);
      var cut := |TrimRight(s)|;
      assert s[cut..] == s[..|s| - 1][cut..] + [s[|s| - 1]];
    } else {
      assert s[|s|..] == "";
    }
  }

  /** Trimming cuts off exactly the space at both ends. */
  lemma TrimCutsSpace(s: string)
    ensures exists before, after :: Blank(before) && Blank(after) && s == before + TrimSpace(s) + after
  {
    LeftPart(s);
    RightPart(TrimLeft(s));
    assert TrimSpace(s) == TrimRight(TrimLeft(s));
    hide TrimSpace, TrimLeft, TrimRight, Blank, Trimmed;
    var left := TrimLeft(s);
    var before, after := s[..|s| - |left|], left[|TrimSpace(s)|..];
    assert left == TrimSpace(s) + after;
    assert s == before + TrimSpace(s) + after;
  }

  lemma TrimmedStays(t: string)
    requires Trimmed(t)
    ensures TrimSpace(t) == t
  {
  }

  function TrimPrefix(s: string, p: string): string {
    if p <= s then s[|p|..] else s
  }

  function TrimSuffix(s: string, p: string): string {
    if |p| <= |s| && s[|s| - |p|..] == p then s[..|s| - |p|] else s
  }

  function StripCodeFence(s: string): (t: string)
    ensures Trimmed(t)
  {
    TrimSpace(TrimSuffix(TrimPrefix(TrimPrefix(TrimSpace(s), "```json"), "```"), "```"))
  }

  lemma {:induction false} TrimRightOfConcat(front: string, s: string)
    requires TrimRight(s) != ""
    ensures TrimRight(front + s) == front + TrimRight(s)
  {
    var all := front + s;
    assert all[|all| - 1] == s[|s| - 1];
    if IsSpace(s[|s| - 1]) {
      assert all[..|all| - 1] == front + s[..|s| - 1];
      TrimRightOfConcat(front, s[..|s| - 1]);
    }
  }

  lemma {:induction false} TrimLeftIsSuffix(s: string)
    ensures exists k :: 0 <= k <= |s| && TrimLeft(s) == s[k..]
  {
    if s != "" && IsSpace(s[0]) {
      TrimLeftIsSuffix(s[1..]);
      var k :| 0 <= k <= |s| - 1 && TrimLeft(s[1..]) == s[1..][k..];
      assert s[1..][k..] == s[k + 1..];
    } else {
      assert s[0..] == s;
    }
  }

  lemma {:induction false} TrimRightStops(s: string)
    requires s != "" && !IsSpace(s[0])
    ensures TrimRight(s) != ""
  {
    if IsSpace(s[|s| - 1]) { TrimRightStops(s[..|s| - 1]); }
  }

  lemma SuffixIsShorter(s: string, k: nat)
    requires 0 < k <= |s| && !IsSpace(s[0])
    ensures |TrimRight(s[k..])| < |TrimRight(s)|
  {
    TrimRightStops(s);
    hide TrimRight, IsSpace;
    if TrimRight(s[k..]) != "" {
      assert s == s[..k] + s[k..];
      TrimRightOfConcat(s[..k], s[k..]);
    }
  }

  /** Trimming what is left after cutting a visible start gives something shorter. */
  lemma CutIsShorter(s: string, k: nat)
    requires 0 < k <= |s| && !IsSpace(s[0])
    ensures |TrimSpace(s[k..])| < |TrimSpace(s)|
  {
    TrimLeftIsSuffix(s[k..]);
    var j :| 0 <= j <= |s| - k && TrimLeft(s[k..]) == s[k..][j..];
    assert s[k..][j..] == s[k + j..] && TrimLeft(s) == s;
    hide TrimLeft, TrimRight, IsSpace;
    SuffixIsShorter(s, k + j);
  }

  /**
   A document in a json fence loses exactly its fence and the space around it, unless it starts with
   three backquotes itself.
   */
  lemma JsonFenceIsRemoved(body: string)
    ensures StripCodeFence("```json" + body + "```") == TrimSpace(body) <==> !("```" <= body)
  {
    var rest := body + "```";
    var s := "```json" + rest;
    assert s == "```json" + body + "```";
    assert s[0] == '`' && s[|s| - 1] == rest[|rest| - 1] == '`';
    TrimmedStays(s);
    assert TrimPrefix(s, "```json") == rest;
    UnfencedBody(body);
    if "```" <= body { CutIsShorter(body, 3); }
    hide TrimSpace, TrimPrefix, TrimSuffix;
  }

  lemma JsonFenceIsFence(t: string)
    ensures "```json" <= t ==> "```" <= t
  {
    if "```json" <= t { assert t[..3] == "```json"[..3] == "```"; }
  }

  /** A document without a fence at either end is only trimmed. */
  lemma UnfencedIsKept(s: string)
    requires !("```" <= TrimSpace(s))
    requires |TrimSpace(s)| >= 3 ==> TrimSpace(s)[|TrimSpace(s)| - 3..] != "```"
    ensures StripCodeFence(s) == TrimSpace(s)
  {
    var t := TrimSpace(s);
    JsonFenceIsFence(t);
    TrimmedStays(t);
    hide TrimSpace;
    assert TrimPrefix(t, "```json") == t && TrimPrefix(t, "```") == t && TrimSuffix(t, "```") == t;
  }

  /** What the two last cuts leave of a body and its closing fence. */
  lemma UnfencedBody(body: string)
    ensures TrimSuffix(TrimPrefix(body + "```", "```"), "```") == if "```" <= body then body[3..] else body
  {
    var rest := body + "```";
    if "```" <= body {
      assert rest[3..] == body[3..] + "```";
      assert (body[3..] + "```")[..|body| - 3] == body[3..];
    } else if "```" <= rest {
      assert |body| < 3;
      assert forall i :: 0 <= i < |body| ==> body[i] == rest[i] == "```"[i];
      assert rest[3..] == body;
    } else {
      assert rest[..|body|] == body;
    }
  }

  /** Likewise in a plain fence, unless the document starts with the word json. */
  lemma PlainFenceIsRemoved(body: string)
    ensures StripCodeFence("```" + body + "```") == TrimSpace(body) <==> !("json" <= body)
  {
    var rest := body + "```";
    var s := "```" + rest;
    assert s == "```" + body + "```";
    assert s[0] == '`' && s[|s| - 1] == rest[|rest| - 1] == '`';
    TrimmedStays(s);
    if "json" <= body {
      var inner := body[4..];
      assert s == "```json" + (inner + "```");
      assert TrimPrefix(s, "```json") == inner + "```";
      UnfencedBody(inner);
      if "```" <= inner {
        CutIsShorter(body, 7);
        assert inner[3..] == body[7..];
      } else {
        CutIsShorter(body, 4);
      }
    } else {
      NoJsonWord(body);
      assert TrimPrefix(s, "```json") == s && TrimPrefix(s, "```") == rest;
      assert rest[..|body|] == body && rest[|body|..] == "```";
    }
    hide TrimSpace, TrimPrefix;
  }

  lemma NoJsonWord(body: string)
    requires !("json" <= body)
    ensures !("```json" <= "```" + (body + "```"))
  {
    var s := "```" + (body + "```");
    if |body| >= 4 {
      var i :| 0 <= i < 4 && body[i] != "json"[i];
      assert s[3 + i] == body[i] && "```json"[3 + i] == "json"[i];
    } else {
      assert s[3 + |body|] == '`' != "```json"[3 + |body|];
    }
  }

  /** FirstNonEmpty of two values. */
  function FirstNonEmpty(a: string, b: string): string {
    if TrimSpace(a) != "" then a else if TrimSpace(b) != "" then b else ""
  }

  lemma {:induction false} BlankIsTrimmedAway(s: string)
    ensures TrimSpace(s) == "" <==> Blank(s)
  {
    TrimCutsSpace(s);
    var before, after :| Blank(before) && Blank(after) && s == before + TrimSpace(s) + after;
    var t := TrimSpace(s);
    if t != "" { assert s[|before|] == t[0]; }
    hide TrimSpace;
  }

  /** The first of the two that is not all space, untrimmed. */
  lemma FirstVisible(a: string, b: string)
    ensures FirstNonEmpty(a, b) == if !Blank(a) then a else if !Blank(b) then b else ""
  {
    BlankIsTrimmedAway(a);
    BlankIsTrimmedAway(b);
    hide TrimSpace, Blank;
  }

  // ----- trees -----

  /** A decoded value. */
  datatype Json =
      Null | Bool(b: bool) | Number(n: string) | Str(s: string) | Arr(items: seq<Json>) | Obj(fields: map<string, Json>)

  /** The order a map is iterated in, which Go may choose anew on each visit; `path` tells visits apart. */
  type Order = (seq<nat>, map<string, Json>) -> seq<string>

  ghost predicate ValidOrder(order: Order) {
    forall path, m, key :: key in order(path, m) <==> key in m
  }

  const PREFERRED: seq<string> := ["text", "content", "message", "output", "value"]

  function ExtractTextValue(v: Json, path: seq<nat>, order: Order): string
    decreases v, 1
  {
    match v
    case Str(s) => TrimSpace(StripCodeFence(s))
    case Arr(items) => LastText(items, path, order)
    case Obj(fields) =>
      var preferred := FirstText(v, PREFERRED, path + [0], order);
      if preferred != "" then preferred else FirstText(v, order(path, fields), path + [1], order)
    case _ => ""
  }

  /** The backward loop over an array. */
  function LastText(items: seq<Json>, path: seq<nat>, order: Order): string
    decreases items
  {
    if items == [] then ""
    else
      var text := ExtractTextValue(items[|items| - 1], path + [|items|], order);
      if text != "" then text else LastText(items[..|items| - 1], path, order)
  }

  /** The loops over keys: first the preferred ones, then the map in its iteration order. */
  function FirstText(v: Json, keys: seq<string>, path: seq<nat>, order: Order): string
    requires v.Obj?
    decreases v, 0, |keys|
  {
    if keys == [] then ""
    else
      var text := if keys[0] in v.fields then ExtractTextValue(v.fields[keys[0]], path + [|keys|], order) else "";
      if text != "" then text else FirstText(v, keys[1..], path, order)
  }

  /** `leaf` is one of the strings in the tree. */
  ghost predicate HasLeaf(v: Json, leaf: string) {
    match v
    case Str(s) => s == leaf
    case Arr(items) => exists i :: 0 <= i < |items| && HasLeaf(items[i], leaf)
    case Obj(fields) => exists key :: key in fields && HasLeaf(fields[key], leaf)
    case _ => false
  }

  /** `text` is "" exactly when every leaf of `v` strips to "", and is otherwise some stripped leaf. */
  ghost predicate Faithful(v: Json, text: string) {
    && (text == "" <==> forall leaf :: HasLeaf(v, leaf) ==> StripCodeFence(leaf) == "")
    && (text != "" ==> exists leaf :: HasLeaf(v, leaf) && StripCodeFence(leaf) == text)
  }

  lemma SplitArray(items: seq<Json>, leaf: string)
    requires items != []
    ensures HasLeaf(Arr(items), leaf) <==> HasLeaf(items[|items| - 1], leaf) || HasLeaf(Arr(items[..|items| - 1]), leaf)
  {
    var n := |items| - 1;
    if HasLeaf(Arr(items), leaf) {
      var i :| 0 <= i < |items| && HasLeaf(items[i], leaf);
      assert i < n ==> HasLeaf(items[..n][i], leaf);
    }
    if HasLeaf(Arr(items[..n]), leaf) {
      var i :| 0 <= i < n && HasLeaf(items[..n][i], leaf);
      assert HasLeaf(items[i], leaf);
    }
  }

  /** Taking the first non-empty of two faithful results is faithful to both trees together. */
  lemma FirstOfTwo(u: Json, v: Json, both: Json, a: string, b: string)
    requires Faithful(u, a) && Faithful(v, b)
    requires forall leaf :: HasLeaf(both, leaf) <==> HasLeaf(u, leaf) || HasLeaf(v, leaf)
    ensures Faithful(both, if a != "" then a else b)
  {
    hide HasLeaf, StripCodeFence;
  }

  lemma EveryLeafHasKey(v: Json, keys: seq<string>)
    requires v.Obj? && forall key :: key in v.fields ==> key in keys
    ensures forall leaf :: HasLeaf(v, leaf) ==>
        exists key :: key in keys && key in v.fields && HasLeaf(v.fields[key], leaf)
  {
  }

  /** Extraction is complete and sound on every tree, whatever the iteration orders. */
  lemma {:induction false} ExtractIsFaithful(v: Json, path: seq<nat>, order: Order)
    requires ValidOrder(order)
    ensures Faithful(v, ExtractTextValue(v, path, order))
    decreases v, 1
  {
    match v
    case Str(s) =>
      TrimmedStays(StripCodeFence(s));
      assert HasLeaf(v, s);
      hide StripCodeFence;
    case Arr(items) =>
      LastIsFaithful(items, path, order);
      hide Faithful;
    case Obj(fields) =>
      var keys := order(path, fields);
      FirstIsFaithful(v, PREFERRED, path + [0], order);
      FirstIsFaithful(v, keys, path + [1], order);
      EveryLeafHasKey(v, keys);
      hide HasLeaf, FirstText, StripCodeFence;
    case _ =>
  }

  lemma {:induction false} LastIsFaithful(items: seq<Json>, path: seq<nat>, order: Order)
    requires ValidOrder(order)
    ensures Faithful(Arr(items), LastText(items, path, order))
    decreases items
  {
    if items == [] {
    } else {
      var n := |items| - 1;
      var p := path + [|items|];
      ExtractIsFaithful(items[n], p, order);
      LastIsFaithful(items[..n], path, order);
      forall leaf ensures HasLeaf(Arr(items), leaf) <==> HasLeaf(items[n], leaf) || HasLeaf(Arr(items[..n]), leaf) {
        SplitArray(items, leaf);
      }
      hide HasLeaf, Faithful, ExtractTextValue;
      FirstOfTwo(items[n], Arr(items[..n]), Arr(items), ExtractTextValue(items[n], p, order),
          LastText(items[..n], path, order));
    }
  }

  /** A scan over some keys finds a leaf unless everything under those keys strips to "". */
  lemma {:induction false} FirstIsFaithful(v: Json, keys: seq<string>, path: seq<nat>, order: Order)
    requires v.Obj? && ValidOrder(order)
    ensures var text := FirstText(v, keys, path, order);
            && (text != "" ==> exists leaf :: HasLeaf(v, leaf) && StripCodeFence(leaf) == text && text != "")
            && (text == "" ==> forall key, leaf :: key in keys && key in v.fields && HasLeaf(v.fields[key], leaf) ==>
                StripCodeFence(leaf) == "")
    decreases v, 0, |keys|
  {
    hide StripCodeFence;
    if keys == [] {
    } else {
      if keys[0] in v.fields {
        ExtractIsFaithful(v.fields[keys[0]], path + [|keys|], order);
        assert forall leaf :: HasLeaf(v.fields[keys[0]], leaf) ==> HasLeaf(v, leaf);
      }
      FirstIsFaithful(v, keys[1..], path, order);
      hide ExtractTextValue, HasLeaf;
      assert forall key :: key in keys ==> key == keys[0] || key in keys[1..];
    }
  }

  /** Whether any text is found does not depend on the order maps are iterated in. */
  lemma EmptinessIgnoresOrder(v: Json, p: seq<nat>, q: seq<nat>, order: Order, other: Order)
    requires ValidOrder(order) && ValidOrder(other)
    ensures ExtractTextValue(v, p, order) == "" <==> ExtractTextValue(v, q, other) == ""
  {
    ExtractIsFaithful(v, p, order);
    ExtractIsFaithful(v, q, other);
    hide HasLeaf, ExtractTextValue, StripCodeFence;
  }

  /** Every result is already trimmed. */
  lemma ExtractIsTrimmed(v: Json, path: seq<nat>, order: Order)
    requires ValidOrder(order)
    ensures TrimSpace(ExtractTextValue(v, path, order)) == ExtractTextValue(v, path, order)
  {
    ExtractIsFaithful(v, path, order);
    hide ExtractTextValue, StripCodeFence;
    TrimmedStays(ExtractTextValue(v, path, order));
  }

  /** In an array the last element with text wins. */
  lemma {:induction false} LastElementWins(items: seq<Json>, i: nat, path: seq<nat>, order: Order)
    requires i < |items| && ExtractTextValue(items[i], path + [i + 1], order) != ""
    requires forall k :: i < k < |items| ==> ExtractTextValue(items[k], path + [k + 1], order) == ""
    ensures ExtractTextValue(Arr(items), path, order) == ExtractTextValue(items[i], path + [i + 1], order)
    decreases |items|
  {
    if i < |items| - 1 {
      LastElementWins(items[..|items| - 1], i, path, order);
    }
  }

  /** In an object the first of the preferred keys with text wins over every other key. */
  lemma PreferredKeyWins(fields: map<string, Json>, k: nat, path: seq<nat>, order: Order)
    requires k < |PREFERRED| && PREFERRED[k] in fields
    requires ExtractTextValue(fields[PREFERRED[k]], path + [0] + [|PREFERRED| - k], order) != ""
    requires forall j :: 0 <= j < k && PREFERRED[j] in fields ==>
               ExtractTextValue(fields[PREFERRED[j]], path + [0] + [|PREFERRED| - j], order) == ""
    ensures PREFERRED == ["text", "content", "message", "output", "value"]
    ensures ExtractTextValue(Obj(fields), path, order) ==
        ExtractTextValue(fields[PREFERRED[k]], path + [0] + [|PREFERRED| - k], order)
  {
    FirstKeyWins(Obj(fields), PREFERRED, k, path + [0], order);
    hide FirstText;
  }

  lemma {:induction false} FirstKeyWins(v: Json, keys: seq<string>, k: nat, path: seq<nat>, order: Order)
    requires v.Obj? && k < |keys| && keys[k] in v.fields
    requires ExtractTextValue(v.fields[keys[k]], path + [|keys| - k], order) != ""
    requires forall j :: 0 <= j < k && keys[j] in v.fields ==>
        ExtractTextValue(v.fields[keys[j]], path + [|keys| - j], order) == ""
    ensures FirstText(v, keys, path, order) == ExtractTextValue(v.fields[keys[k]], path + [|keys| - k], order)
    decreases k
  {
    hide ExtractTextValue;
    if k == 0 {
    } else {
      assert forall j :: 0 <= j < k - 1 ==> keys[1..][j] == keys[j + 1];
      FirstKeyWins(v, keys[1..], k - 1, path, order);
    }
  }
}
