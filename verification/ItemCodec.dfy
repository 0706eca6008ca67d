/**
 The wire form of an item (internal/protocol/item.go): one JSON object holding "id", "type" and the
 payload's own keys.
 */
module ItemCodec {
  import opened Wrappers
  import opened Jsonx
  import opened Collector

  const ID := "id"
  const TYPE := "type"

  datatype CodecError = NotAnObject | MissingType | BadType | BadID

  type Fields = map<string, Json>

  /** json.Unmarshal of these bytes into a map: JSON null gives an empty map, and anything but an object fails. */
  function AsFields(bytes: Payload): Result<Fields, CodecError> {
    match bytes
    case Decoded(Obj(fields)) => Ok(fields)
    case Decoded(Null) => Ok(map[])
    case _ => Err(NotAnObject)
  }

  /** The keys a payload contributes; no payload is the same as an empty one. */
  function PayloadFields(payload: Payload): Result<Fields, CodecError> {
    if payload.Absent? then Ok(map[]) else AsFields(payload)
  }

  function PayloadOf(fields: Fields): Payload {
    if fields == map[] then Absent else Decoded(Obj(fields))
  }

  /** MarshalJSON: the fields of the object it writes. */
  function Encode(i: Item): Result<Fields, CodecError> {
    match PayloadFields(i.payload)
    case Err(e) => Err(e)
    case Ok(fields) =>
      var named := if i.id != "" then fields[ID := Str(i.id)] else fields;
      Ok(named[TYPE := Str(i.kind)])
  }

  /** json.Unmarshal into a string that holds `was`: null leaves it alone. */
  function AsString(v: Json, was: string): Option<string> {
    match v
    case Str(s) => Some(s)
    case Null => Some(was)
    case _ => None
  }

  /** What UnmarshalJSON reports and what it leaves in its receiver. */
  datatype Parsed = Parsed(failed: Option<CodecError>, item: Item)

  function Decode(bytes: Payload, receiver: Item): Parsed {
    match AsFields(bytes)
    case Err(e) => Parsed(Some(e), receiver)
    case Ok(fields) =>
      if TYPE !in fields then Parsed(Some(MissingType), receiver)
      else
        match AsString(fields[TYPE], receiver.kind)
        case None => Parsed(Some(BadType), receiver)
        case Some(kind) =>
          var typed := receiver.(kind := kind);
          if ID !in fields then Parsed(None, typed.(payload := PayloadOf(fields - {TYPE})))
          else
            match AsString(fields[ID], receiver.id)
            case None => Parsed(Some(BadID), typed)
            case Some(id) => Parsed(None, typed.(id := id, payload := PayloadOf(fields - {ID, TYPE})))
  }

  // ----- Round trips -----

  /** The item with its payload written the one way decoding writes it. */
  function Normal(i: Item, fields: Fields): Item {
    i.(payload := PayloadOf(fields))
  }

  /**
   Encoding fails exactly on a payload that is not an object. Otherwise decoding what was written, into
   any receiver, gives the item back exactly when its payload has no "id" or "type" key of its own and
   the receiver has no id left over that the object does not overwrite.
   */
  lemma DecodeAfterEncode(i: Item, receiver: Item)
    ensures Encode(i).Ok? <==> i.payload.Absent? || (i.payload.Decoded? && (i.payload.v.Obj? || i.payload.v.Null?))
    ensures Encode(i).Ok? ==>
              var fields := PayloadFields(i.payload).value;
              Decode(Decoded(Obj(Encode(i).value)), receiver) == Parsed(None, Normal(i, fields)) <==>
              "id" !in fields && "type" !in fields && (i.id != "" || receiver.id == "")
  {
    if Encode(i).Ok? {
      var fields, o := PayloadFields(i.payload).value, Encode(i).value;
      if ID !in fields && TYPE !in fields {
        assert o - {ID, TYPE} == fields && (ID !in o ==> o - {TYPE} == fields);
      } else {
        assert fields != o - {ID, TYPE} && (ID !in o ==> fields != o - {TYPE});
      }
    }
  }

  /**
   Decoding an object and encoding the result writes the same object exactly when "type" is a string
   and "id" is a non-empty string, or missing while the receiver has no id.
   */
  lemma EncodeAfterDecode(o: Fields, receiver: Item)
    ensures var p := Decode(Decoded(Obj(o)), receiver);
            p.failed.None? && Encode(p.item) == Ok(o) <==>
            "type" in o && o["type"].Str? && if "id" in o then o["id"].Str? && o["id"].s != "" else receiver.id == ""
  {
    var p := Decode(Decoded(Obj(o)), receiver);
    if p.failed.None? {
      var rest := if ID in o then o - {ID, TYPE} else o - {TYPE};
      assert PayloadFields(p.item.payload) == Ok(rest);
      var again := Encode(p.item).value;
      assert again[TYPE] == Str(p.item.kind);
      assert (ID in again <==> p.item.id != "") && (ID in again ==> again[ID] == Str(p.item.id));
      assert forall key :: key != ID && key != TYPE ==>
          (key in again <==> key in o) && (key in o ==> again[key] == o[key]);
      assert again == o <==> (ID in again <==> ID in o) && (ID in o ==> again[ID] == o[ID]) && again[TYPE] == o[TYPE];
    }
  }

  predicate StringOrNull(v: Json) {
    v.Str? || v.Null?
  }

  /** No "type", or a "type" or "id" that is neither a string nor null. */
  predicate Undecodable(o: Fields) {
    "type" !in o || !StringOrNull(o["type"]) || ("id" in o && !StringOrNull(o["id"]))
  }

  /**
   Decoding fails exactly on undecodable objects, whatever the receiver holds. The receiver's old
   contents show in the result exactly when the object decodes and leaves "type" or "id" unset.
   */
  lemma DecodeIgnoresReceiver(o: Fields)
    ensures forall a :: Decode(Decoded(Obj(o)), a).failed.Some? <==> Undecodable(o)
    ensures (forall a, b :: var p, q := Decode(Decoded(Obj(o)), a), Decode(Decoded(Obj(o)), b);
               p.failed == q.failed && (p.failed.None? ==> p.item == q.item))
            <==> Undecodable(o) || (o["type"].Str? && "id" in o && o["id"].Str?)
  {
    var a, b := Item("", "", Absent), Item("x", "x", Absent);
    var p, q := Decode(Decoded(Obj(o)), a), Decode(Decoded(Obj(o)), b);
    if p.failed.None? && p.item == q.item { assert p.item.id == q.item.id && p.item.kind == q.item.kind; }
  }

  // ----- The methods -----

  class ItemRecord {
    var id: string
    var kind: string
    var payload: Payload

    function View(): Item
      reads this
    {
      Item(id, kind, payload)
    }

    method MarshalJSON() returns (r: Result<Fields, CodecError>)
      ensures r == Encode(View())
    {
      var obj: Fields := map[];
      if !payload.Absent? {
        var fields := AsFields(payload);
        if fields.Err? { return Err(fields.error); }
        var keys := fields.value.Keys;
        while keys != {}
          invariant keys <= fields.value.Keys
          invariant obj.Keys == fields.value.Keys - keys
          invariant forall k :: k in obj ==> obj[k] == fields.value[k]
          decreases keys
        {
          var k :| k in keys;
          obj := obj[k := fields.value[k]];
          keys := keys - {k};
        }
        assert obj == fields.value;
      }
      if id != "" { obj := obj[ID := Str(id)]; }
      obj := obj[TYPE := Str(kind)];
      r := Ok(obj);
    }

    method UnmarshalJSON(bytes: Payload) returns (failed: Option<CodecError>)
      modifies this
      ensures Parsed(failed, View()) == Decode(bytes, old(View()))
    {
      var decoded := AsFields(bytes);
      if decoded.Err? { return Some(decoded.error); }
      var obj := decoded.value;
      if TYPE !in obj { return Some(MissingType); }
      var newKind := AsString(obj[TYPE], kind);
      if newKind.None? { return Some(BadType); }
      kind := newKind.value;
      if ID in obj {
        var newID := AsString(obj[ID], id);
        if newID.None? { return Some(BadID); }
        id := newID.value;
        obj := obj - {ID};
      }
      obj := obj - {TYPE};
      assert ID in decoded.value ==> obj == decoded.value - {ID, TYPE};
      payload := PayloadOf(obj);
      failed := None;
    }
  }
}
