/**
 The printer and parser of PbCJson.cpp as written: containers filled in loops, and a C struct whose
 members are overwritten in place. Each routine is proved equal to its counterpart in PbJson.
 */
module PbCodec {
  import opened Options
  import opened Naming
  import opened PbSchema
  import opened PbJson
  import opened PbTyping
  import B = Base64

  // ----- printer

  /** enumValueByNumber */
  method NameOfNumber(e: EnumDescriptor, number: int) returns (named: Option<EnumValue>)
    ensures named == ByNumber(e, number)
  {
    for i := 0 to |e.values|
      invariant ByNumber(e, number) == ByNumber(e.(values := e.values[i..]), number)
    {
      if e.values[i].number == number {
        return Some(e.values[i]);
      }
      assert e.values[i..][1..] == e.values[i + 1..];
    }
    named := None;
  }

  /** One scalar of the type the descriptor names. What is printed reads back as its normal form. */
  method ScalarJson(schema: Schema, ty: FieldType, v: Value) returns (j: Json)
    requires TypedElement(schema, ty, v) && !ty.MessageType?
    ensures j == ScalarToJson(ty, v)
    ensures (ty.EnumType? ==> ConsistentEnum(ty.desc)) ==>
              ParseScalar(j, ty) == Some(NormalElement(schema, ty, v, false))
  {
    match ty {
    case BoolType => j := JBool(v.i != 0);
    case Int32Type => j := JInt(v.i);
    case UInt32Type => j := JInt(v.i);
    case Int64Type => j := JInt(v.i);
    case UInt64Type => j := JInt(v.i);
    case FloatType => j := JFloat(v.r);
    case DoubleType => j := JFloat(v.r);
    case EnumType(e) =>
      var named := NameOfNumber(e, v.i);
      j := if named.Some? then JStr(named.value.name) else JInt(v.i);
    case StringType => j := JStr(if v.s.Some? then v.s.value else "");
    case BytesType =>
      if v.b == [] {
        j := JStr("");
      } else {
        var text := B.Base64Encode(v.b);
        j := JStr(text);
      }
    }
    if ty.EnumType? ==> ConsistentEnum(ty.desc) {
      ScalarRestores(schema, ty, v, false);
    }
  }

  method ElementJson(schema: Schema, ty: FieldType, v: Value) returns (j: Json)
    requires TypedElement(schema, ty, v)
    ensures j == ElementToJson(schema, ty, v)
    decreases v, 0
  {
    if ty.MessageType? {
      if v.m.Some? {
        j := MessageToJsonImpl(schema, v.m.value);
      } else {
        j := JObj([]);
      }
    } else {
      j := ScalarJson(schema, ty, v);
    }
  }

  lemma {:induction false} ElementsAt(schema: Schema, ty: FieldType, vs: seq<Value>)
    ensures forall k :: 0 <= k < |vs| ==>
              ElementsToJson(schema, ty, vs)[k] == ElementToJson(schema, ty, vs[k])
    decreases |vs|
  {
    if vs != [] {
      ElementsAt(schema, ty, vs[1..]);
    }
  }

  method FieldJson(schema: Schema, f: Field, v: Value) returns (j: Json)
    requires TypedField(schema, f, v)
    ensures j == FieldToJson(schema, f, v)
    decreases v, 1
  {
    if f.cardinality.Repeated? {
      var arr: seq<Json> := [];
      for i := 0 to |v.vs|
        invariant |arr| == i
        invariant forall k :: 0 <= k < i ==> arr[k] == ElementToJson(schema, f.ty, v.vs[k])
      {
        var e := ElementJson(schema, f.ty, v.vs[i]);
        arr := arr + [e];
      }
      ElementsAt(schema, f.ty, v.vs);
      assert arr == ElementsToJson(schema, f.ty, v.vs);
      return JArr(arr);
    }
    j := ElementJson(schema, f.ty, v);
  }

  method MessageToJsonImpl(schema: Schema, m: Message) returns (j: Json)
    requires WellTyped(schema, m)
    ensures j == MessageToJson(schema, m)
    decreases m, 3
  {
    var fields := schema[m.desc];
    var obj: seq<Member> := [];
    for i := 0 to |fields|
      invariant obj == Printed(schema, fields, m, i)
    {
      var slot := SlotAt(m, i);
      assert TypedSlot(schema, fields[i], slot);
      if slot.Present? && FieldIsSet(fields[i], slot) {
        var key := SnakeToCamel(fields[i].name);
        var value := FieldJson(schema, fields[i], slot.v);
        obj := Put(obj, key, value);
      }
    }
    j := JObj(obj);
  }

  // ----- parser

  /** A message struct under construction. */
  class Struct {
    const fields: seq<Field>
    var slots: seq<Slot>

    predicate Valid()
      reads this
    {
      |slots| == |fields|
    }

    /** protobuf_c_message_init */
    constructor (fields: seq<Field>)
      ensures Valid() && this.fields == fields && slots == InitSlots(fields)
    {
      this.fields := fields;
      slots := InitSlots(fields);
    }

    method Store(i: nat, v: Value)
      requires Valid() && i < |fields|
      modifies this
      ensures Valid() && slots == SetSlot(fields, old(slots), i, v)
    {
      if fields[i].oneof.Some? {
        for j := 0 to |fields|
          invariant Valid()
          invariant forall k :: 0 <= k < j ==>
                      slots[k] == if fields[k].oneof == fields[i].oneof then Absent else old(slots[k])
          invariant forall k :: j <= k < |slots| ==> slots[k] == old(slots[k])
        {
          if fields[j].oneof == fields[i].oneof {
            slots := slots[j := Absent];
          }
        }
      }
      slots := slots[i := Present(v)];
    }
  }

  /** enumValueByName */
  method NumberOfName(e: EnumDescriptor, name: string) returns (named: Option<EnumValue>)
    ensures named == ByName(e, name)
  {
    for i := 0 to |e.byName|
      invariant IndexByName(e.byName, name) == IndexByName(e.byName[i..], name)
    {
      if e.byName[i].name == name {
        var k := e.byName[i].index;
        return if k < |e.values| then Some(e.values[k]) else None;
      }
      assert e.byName[i..][1..] == e.byName[i + 1..];
    }
    for i := 0 to |e.values|
      invariant ValueByName(e.values, name) == ValueByName(e.values[i..], name)
    {
      if e.values[i].name == name {
        return Some(e.values[i]);
      }
      assert e.values[i..][1..] == e.values[i + 1..];
    }
    named := None;
  }

  /** One scalar of the type the descriptor names. What is stored has that type's width and is in
      normal form. */
  method ScalarFromJson(schema: Schema, ty: FieldType, j: Json) returns (r: Option<Value>)
    ensures r == ParseScalar(j, ty)
    ensures SoundType(schema, ty) && r.Some? ==>
              TypedElement(schema, ty, r.value) && NormalElement(schema, ty, r.value, true) == r.value
  {
    r := None;
    match ty {
    case BoolType =>
      if j.JBool? {
        r := Some(Number(if j.b then 1 else 0));
      }
    case Int32Type => r := StoredInteger(IntegerOf(j, true), true, 32);
    case UInt32Type => r := StoredInteger(IntegerOf(j, true), false, 32);
    case Int64Type => r := StoredInteger(IntegerOf(j, false), true, 64);
    case UInt64Type => r := StoredInteger(IntegerOf(j, false), false, 64);
    case FloatType => r := StoredReal(RealOf(j, true));
    case DoubleType => r := StoredReal(RealOf(j, false));
    case EnumType(e) =>
      if j.JStr? {
        var named := NumberOfName(e, j.s);
        if named.Some? {
          r := Some(Number(named.value.number));
        }
      } else {
        r := StoredInteger(IntegerOf(j, true), true, 32);
      }
    case StringType =>
      if j.JStr? {
        r := Some(Text(Some(CStr(j.s))));
      }
    case BytesType =>
      if j.JStr? {
        var ok, bytes := B.Base64Decode(j.s);
        if ok {
          r := Some(Data(bytes));
        }
      }
    case MessageType(_) =>
    }
    if SoundType(schema, ty) && r.Some? {
      ParsedScalarTyped(schema, ty, j, true);
    }
  }

  /** A conversion that throws stores nothing. */
  function StoredInteger(n: Option<int>, signed: bool, bits: nat): Option<Value>
    requires bits == 32 || bits == 64
  {
    if n.None? then None else Some(Number(if signed then Signed(n.value, bits) else Unsigned(n.value, bits)))
  }

  function StoredReal(r: Option<real>): Option<Value>
  {
    if r.None? then None else Some(Floating(r.value))
  }

  method ElementFromJson(schema: Schema, ty: FieldType, j: Json) returns (r: Option<Value>)
    ensures r == ParseElement(schema, ty, j)
    decreases j, 4
  {
    if ty.MessageType? {
      var sub := MessageFromJsonImpl(schema, ty.name, j);
      r := if sub.None? then None else Some(Sub(sub));
    } else {
      r := ScalarFromJson(schema, ty, j);
    }
  }

  /** The first element that fails spoils the array. */
  lemma {:induction false} ParseElementsFrom(schema: Schema, ty: FieldType, js: seq<Json>, i: nat)
    requires i < |js|
    requires forall k :: 0 <= k < i ==> ParseElement(schema, ty, js[k]).Some?
    ensures ParseElement(schema, ty, js[i]).None? ==> ParseElements(schema, ty, js).None?
    decreases i
  {
    if i > 0 {
      ParseElementsFrom(schema, ty, js[1..], i - 1);
    }
  }

  lemma {:induction false} ParseElementsAll(schema: Schema, ty: FieldType, js: seq<Json>, vs: seq<Value>)
    requires |vs| == |js|
    requires forall k :: 0 <= k < |js| ==> ParseElement(schema, ty, js[k]) == Some(vs[k])
    ensures ParseElements(schema, ty, js) == Some(vs)
    decreases |js|
  {
    if js != [] {
      ParseElementsAll(schema, ty, js[1..], vs[1..]);
      assert [vs[0]] + vs[1..] == vs;
    }
  }

  method ElementsFromJson(schema: Schema, ty: FieldType, js: seq<Json>) returns (r: Option<seq<Value>>)
    ensures r == ParseElements(schema, ty, js)
    decreases js, 5
  {
    var arr: seq<Value> := [];
    for i := 0 to |js|
      invariant |arr| == i
      invariant forall k :: 0 <= k < i ==> ParseElement(schema, ty, js[k]) == Some(arr[k])
    {
      var e := ElementFromJson(schema, ty, js[i]);
      if e.None? {
        ParseElementsFrom(schema, ty, js, i);
        return None;
      }
      arr := arr + [e.value];
    }
    ParseElementsAll(schema, ty, js, arr);
    r := Some(arr);
  }

  /** Parses `j` into field `i` of the struct; on failure the caller frees the struct. */
  method MergeField(schema: Schema, message: Struct, i: nat, j: Json) returns (ok: bool)
    requires message.Valid() && i < |message.fields|
    modifies message
    ensures message.Valid()
    ensures var v := ParseField(schema, message.fields[i], j);
            ok == v.Some?
            && (ok ==> message.slots == SetSlot(message.fields, old(message.slots), i, v.value))
    decreases j, 6
  {
    var f := message.fields[i];
    if f.cardinality.Repeated? {
      if !j.JArr? {
        return false;
      }
      var vs := ElementsFromJson(schema, f.ty, j.elements);
      if vs.None? {
        return false;
      }
      message.Store(i, Many(vs.value));
      return true;
    }
    var v := ElementFromJson(schema, f.ty, j);
    if v.None? {
      return false;
    }
    message.Store(i, v.value);
    return true;
  }

  method MessageFromJsonImpl(schema: Schema, d: string, j: Json) returns (r: Option<Message>)
    ensures r == ParseMessage(schema, d, j)
    decreases j, 3
  {
    if d !in schema || !j.JObj? {
      return None;
    }
    var message := new Struct(schema[d]);
    for it := 0 to |j.members|
      invariant message.Valid() && message.fields == schema[d]
      invariant MergeAll(schema, schema[d], message.slots, j.members[it..])
             == MergeAll(schema, schema[d], InitSlots(schema[d]), j.members)
    {
      assert j.members[it..][1..] == j.members[it + 1..];
      var found := FindField(Names(message.fields), j.members[it].key);
      if found.Some? {
        var ok := MergeField(schema, message, found.value, j.members[it].value);
        if !ok {
          return None;
        }
      }
    }
    r := Some(Message(d, message.slots));
  }

  /** The pair, run end to end. */
  method PrintThenParse(schema: Schema, m: Message) returns (r: Option<Message>)
    requires WellFormed(schema) && WellTyped(schema, m)
    ensures r == Some(Normal(schema, m))
  {
    var j := MessageToJsonImpl(schema, m);
    RoundTrip(schema, m);
    r := MessageFromJsonImpl(schema, m.desc, j);
  }
}
