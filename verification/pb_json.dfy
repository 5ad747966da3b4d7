/**
 PbCJson.cpp: printing a protobuf message as a JSON value and reading it back, driven by the
 message's descriptor. JSON is modelled as a value; its text form belongs to the JSON library.
 */
module PbJson {
  import opened Bytes
  import opened Options
  import opened Naming
  import opened PbSchema
  import Base64

  datatype Json =
    | JNull
    | JBool(b: bool)
    | JInt(i: int)
    | JFloat(r: real)
    | JStr(s: string)
    | JArr(elements: seq<Json>)
    | JObj(members: seq<Member>)

  /** Objects list their members in key order, as the library's ordered map does. */
  datatype Member = Member(key: string, value: Json)

  // ----- objects

  function StrLess(a: string, b: string): bool
  {
    if b == "" then false
    else if a == "" then true
    else a[0] < b[0] || (a[0] == b[0] && StrLess(a[1..], b[1..]))
  }

  function Put(ms: seq<Member>, key: string, value: Json): (r: seq<Member>)
  {
    if ms == [] || StrLess(key, ms[0].key) then [Member(key, value)] + ms
    else if ms[0].key == key then [Member(key, value)] + ms[1..]
    else [ms[0]] + Put(ms[1..], key, value)
  }

  predicate HasKey(ms: seq<Member>, key: string)
  {
    exists k :: 0 <= k < |ms| && ms[k].key == key
  }

  predicate DistinctKeys(ms: seq<Member>)
  {
    forall j, k :: 0 <= j < k < |ms| ==> ms[j].key != ms[k].key
  }

  lemma {:induction false} PutMembers(ms: seq<Member>, key: string, value: Json)
    requires DistinctKeys(ms) && !HasKey(ms, key)
    ensures DistinctKeys(Put(ms, key, value))
    ensures forall m :: m in Put(ms, key, value) <==> m in ms || m == Member(key, value)
  {
    if ms == [] || StrLess(key, ms[0].key) {
    } else {
      var rest := ms[1..];
      assert forall k :: 0 <= k < |rest| ==> rest[k] == ms[k + 1];
      assert ms[0].key != key;
      PutMembers(rest, key, value);
      var put := Put(rest, key, value);
      assert forall m :: m in put ==> m.key != ms[0].key;
      assert ms == [ms[0]] + rest;
    }
  }

  // ----- printing

  function ScalarToJson(ty: FieldType, v: Value): Json
  {
    match v
    case Number(i) =>
      if ty.BoolType? then JBool(i != 0)
      else if ty.EnumType? then
        var named := ByNumber(ty.desc, i);
        if named.Some? then JStr(named.value.name) else JInt(i)
      else JInt(i)
    case Floating(r) => JFloat(r)
    case Text(s) => JStr(if s.Some? then s.value else "")
    case Data(b) => JStr(if b == [] then "" else Base64.Encode(b))
    case _ => JNull
  }

  /** Members without a presence mark are printed only when they differ from their default. */
  function FieldIsSet(f: Field, slot: Slot): bool
  {
    if f.oneof.Some? || slot.Absent? then slot.Present?
    else if f.cardinality.Repeated? then slot.v.Many? && slot.v.vs != []
    else if f.cardinality == Optional(true) then true
    else
      match slot.v
      case Number(i) => i != 0
      case Floating(r) => r != 0.0
      case Text(s) => s.Some? && s.value != ""
      case Data(b) => b != []
      case Sub(m) => m.Some?
      case Many(vs) => true
  }

  function ElementToJson(schema: Schema, ty: FieldType, v: Value): Json
    decreases v, 0
  {
    if v.Sub? then (if v.m.Some? then MessageToJson(schema, v.m.value) else JObj([]))
    else ScalarToJson(ty, v)
  }

  function ElementsToJson(schema: Schema, ty: FieldType, vs: seq<Value>): (js: seq<Json>)
    ensures |js| == |vs|
    decreases vs
  {
    if vs == [] then []
    else [ElementToJson(schema, ty, vs[0])] + ElementsToJson(schema, ty, vs[1..])
  }

  function FieldToJson(schema: Schema, f: Field, v: Value): Json
    decreases v, 1
  {
    if v.Many? then JArr(ElementsToJson(schema, f.ty, v.vs)) else ElementToJson(schema, f.ty, v)
  }

  /** The members printed for the first `n` fields. */
  function Printed(schema: Schema, fields: seq<Field>, m: Message, n: nat): seq<Member>
    requires n <= |fields|
    decreases m, 2, n
  {
    if n == 0 then []
    else
      var before := Printed(schema, fields, m, n - 1);
      var slot := SlotAt(m, n - 1);
      if slot.Present? && FieldIsSet(fields[n - 1], slot)
      then Put(before, Camel(fields[n - 1].name), FieldToJson(schema, fields[n - 1], slot.v))
      else before
  }

  function MessageToJson(schema: Schema, m: Message): Json
    decreases m, 3
  {
    if m.desc in schema then JObj(Printed(schema, schema[m.desc], m, |schema[m.desc]|)) else JObj([])
  }

  // ----- reading

  /** The part of a JSON string that strdup copies. */
  function CStr(s: string): string
  {
    if s == "" || s[0] == '\0' then "" else [s[0]] + CStr(s[1..])
  }

  /** static_cast from a JSON number to an integer truncates towards zero. */
  function Truncate(r: real): int
  {
    if r >= 0.0 then r.Floor else -(-r).Floor
  }

  /** The library converts booleans too, except into its own native number types. */
  function IntegerOf(j: Json, acceptBool: bool): Option<int>
  {
    match j
    case JInt(i) => Some(i)
    case JFloat(r) => Some(Truncate(r))
    case JBool(b) => if acceptBool then Some(if b then 1 else 0) else None
    case _ => None
  }

  function RealOf(j: Json, acceptBool: bool): Option<real>
  {
    match j
    case JInt(i) => Some(i as real)
    case JFloat(r) => Some(r)
    case JBool(b) => if acceptBool then Some(if b then 1.0 else 0.0) else None
    case _ => None
  }

  function Signed(x: int, bits: nat): int
    requires bits == 32 || bits == 64
  {
    var half := if bits == 32 then 0x8000_0000 else 0x8000_0000_0000_0000;
    (x + half) % (2 * half) - half
  }

  function Unsigned(x: int, bits: nat): int
    requires bits == 32 || bits == 64
  {
    x % (if bits == 32 then 0x1_0000_0000 else 0x1_0000_0000_0000_0000)
  }

  function ParseScalar(j: Json, ty: FieldType): Option<Value>
  {
    match ty
    case BoolType => if j.JBool? then Some(Number(if j.b then 1 else 0)) else None
    case Int32Type =>
      var n := IntegerOf(j, true);
      if n.Some? then Some(Number(Signed(n.value, 32))) else None
    case UInt32Type =>
      var n := IntegerOf(j, true);
      if n.Some? then Some(Number(Unsigned(n.value, 32))) else None
    case Int64Type =>
      var n := IntegerOf(j, false);
      if n.Some? then Some(Number(Signed(n.value, 64))) else None
    case UInt64Type =>
      var n := IntegerOf(j, false);
      if n.Some? then Some(Number(Unsigned(n.value, 64))) else None
    case FloatType =>
      var r := RealOf(j, true);
      if r.Some? then Some(Floating(r.value)) else None
    case DoubleType =>
      var r := RealOf(j, false);
      if r.Some? then Some(Floating(r.value)) else None
    case EnumType(e) =>
      if j.JStr? then
        var named := ByName(e, j.s);
        if named.Some? then Some(Number(named.value.number)) else None
      else
        var n := IntegerOf(j, true);
        if n.Some? then Some(Number(Signed(n.value, 32))) else None
    case StringType => if j.JStr? then Some(Text(Some(CStr(j.s)))) else None
    case BytesType =>
      if j.JStr? then
        var bytes := Base64.Decode(j.s);
        if bytes.Some? then Some(Data(bytes.value)) else None
      else None
    case MessageType(_) => None
  }

  function ParseElement(schema: Schema, ty: FieldType, j: Json): Option<Value>
    decreases j, 4
  {
    if ty.MessageType? then
      var m := ParseMessage(schema, ty.name, j);
      if m.Some? then Some(Sub(m)) else None
    else ParseScalar(j, ty)
  }

  function ParseElements(schema: Schema, ty: FieldType, js: seq<Json>): (r: Option<seq<Value>>)
    decreases js
  {
    if js == [] then Some([])
    else
      var first := ParseElement(schema, ty, js[0]);
      if first.None? then None
      else
        var rest := ParseElements(schema, ty, js[1..]);
        if rest.None? then None else Some([first.value] + rest.value)
  }

  function ParseField(schema: Schema, f: Field, j: Json): Option<Value>
    decreases j, 5
  {
    if f.cardinality.Repeated? then
      if j.JArr? then
        var vs := ParseElements(schema, f.ty, j.elements);
        if vs.Some? then Some(Many(vs.value)) else None
      else None
    else ParseElement(schema, f.ty, j)
  }

  /** Reads the members in order; unknown keys are passed over, a bad value spoils the message. */
  function MergeAll(schema: Schema, fields: seq<Field>, slots: seq<Slot>, ms: seq<Member>): (r: Option<seq<Slot>>)
    requires |slots| == |fields|
    ensures r.Some? ==> |r.value| == |fields|
    decreases ms
  {
    if ms == [] then Some(slots)
    else
      var found := FindField(Names(fields), ms[0].key);
      if found.None? then MergeAll(schema, fields, slots, ms[1..])
      else
        var v := ParseField(schema, fields[found.value], ms[0].value);
        if v.None? then None
        else MergeAll(schema, fields, SetSlot(fields, slots, found.value, v.value), ms[1..])
  }

  function ParseMessage(schema: Schema, d: string, j: Json): Option<Message>
    decreases j, 3
  {
    if d !in schema || !j.JObj? then None
    else
      var slots := MergeAll(schema, schema[d], InitSlots(schema[d]), j.members);
      if slots.Some? then Some(Message(d, slots.value)) else None
  }

  // ----- what is printed

  /** `member` is the printed form of field `i`. */
  predicate Prints(schema: Schema, fields: seq<Field>, m: Message, i: nat, member: Member)
    requires i < |fields|
  {
    var slot := SlotAt(m, i);
    slot.Present? && FieldIsSet(fields[i], slot)
    && member == Member(Camel(fields[i].name), FieldToJson(schema, fields[i], slot.v))
  }

  predicate PrintsSome(schema: Schema, fields: seq<Field>, m: Message, n: nat, member: Member)
    requires n <= |fields|
  {
    exists i :: 0 <= i < n && Prints(schema, fields, m, i, member)
  }

  /** The object holds exactly one member for each field that is set. */
  lemma {:induction false} PrintedMembers(schema: Schema, fields: seq<Field>, m: Message, n: nat)
    requires n <= |fields| && CamelDistinct(Names(fields))
    ensures DistinctKeys(Printed(schema, fields, m, n))
    ensures forall member :: member in Printed(schema, fields, m, n) <==> PrintsSome(schema, fields, m, n, member)
  {
    if n > 0 {
      var before, f, slot := Printed(schema, fields, m, n - 1), fields[n - 1], SlotAt(m, n - 1);
      PrintedMembers(schema, fields, m, n - 1);
      if slot.Present? && FieldIsSet(f, slot) {
        var member := Member(Camel(f.name), FieldToJson(schema, f, slot.v));
        forall k | 0 <= k < |before|
          ensures before[k].key != member.key
        {
          assert before[k] in before;
          var i :| 0 <= i < n - 1 && Prints(schema, fields, m, i, before[k]);
          assert Camel(Names(fields)[i]) != Camel(Names(fields)[n - 1]);
        }
        PutMembers(before, member.key, member.value);
        assert Prints(schema, fields, m, n - 1, member);
      }
      forall member
        ensures PrintsSome(schema, fields, m, n, member)
           <==> PrintsSome(schema, fields, m, n - 1, member) || Prints(schema, fields, m, n - 1, member)
      {
        if PrintsSome(schema, fields, m, n, member) {
          var i :| 0 <= i < n && Prints(schema, fields, m, i, member);
          assert i < n - 1 ==> PrintsSome(schema, fields, m, n - 1, member);
        }
      }
    }
  }

  // ----- the round trip

  lemma {:induction false} CStrIdentity(s: string)
    requires CString(s)
    ensures CStr(s) == s
  {
    if s != "" {
      CStrIdentity(s[1..]);
    }
  }

  lemma ScalarRestores(schema: Schema, ty: FieldType, v: Value, nullIsEmpty: bool)
    requires TypedElement(schema, ty, v) && !ty.MessageType?
    requires ty.EnumType? ==> ConsistentEnum(ty.desc)
    ensures ParseScalar(ScalarToJson(ty, v), ty) == Some(NormalElement(schema, ty, v, nullIsEmpty))
  {
    match ty
    case EnumType(e) =>
      if ByNumber(e, v.i).Some? {
        EnumNameRestoresNumber(e, v.i);
      }
    case StringType =>
      CStrIdentity(if v.s.Some? then v.s.value else "");
    case BytesType =>
      Base64.DecodeEncode(v.b);
      assert Base64.Encode([]) == "";
    case _ =>
  }

  lemma ElementRestores(schema: Schema, ty: FieldType, v: Value)
    requires WellFormed(schema) && TypedElement(schema, ty, v)
    requires ty.EnumType? ==> ConsistentEnum(ty.desc)
    requires ty.MessageType? ==> ty.name in schema
    ensures ParseElement(schema, ty, ElementToJson(schema, ty, v))
         == Some(NormalElement(schema, ty, v, true))
    decreases v, 0
  {
    if ty.MessageType? {
      if v.m.Some? {
        RoundTrip(schema, v.m.value);
      }
    } else {
      ScalarRestores(schema, ty, v, true);
    }
  }

  lemma ParseOneMore(schema: Schema, ty: FieldType, j: Json, js: seq<Json>)
    ensures var first, rest := ParseElement(schema, ty, j), ParseElements(schema, ty, js);
            ParseElements(schema, ty, [j] + js)
            == if first.None? || rest.None? then None else Some([first.value] + rest.value)
  {
    assert ([j] + js)[1..] == js;
  }

  lemma {:induction false} ElementsRestore(schema: Schema, ty: FieldType, vs: seq<Value>)
    requires WellFormed(schema) && forall i :: 0 <= i < |vs| ==> TypedElement(schema, ty, vs[i])
    requires ty.EnumType? ==> ConsistentEnum(ty.desc)
    requires ty.MessageType? ==> ty.name in schema
    ensures ParseElements(schema, ty, ElementsToJson(schema, ty, vs))
         == Some(NormalElements(schema, ty, vs))
    decreases vs
  {
    if vs != [] {
      ElementRestores(schema, ty, vs[0]);
      ElementsRestore(schema, ty, vs[1..]);
      ParseOneMore(schema, ty, ElementToJson(schema, ty, vs[0]), ElementsToJson(schema, ty, vs[1..]));
    }
  }

  lemma FieldRestores(schema: Schema, f: Field, v: Value)
    requires WellFormed(schema) && WellFormedField(schema, f) && TypedField(schema, f, v)
    requires FieldIsSet(f, Present(v))
    ensures ParseField(schema, f, FieldToJson(schema, f, v)) == Some(NormalField(schema, f, v))
    decreases v, 1
  {
    if f.cardinality.Repeated? {
      ElementsRestore(schema, f.ty, v.vs);
    } else {
      ElementRestores(schema, f.ty, v);
      assert NormalElement(schema, f.ty, v, true) == NormalElement(schema, f.ty, v, TracksPresence(f));
    }
  }

  /** An empty scalar of a type without presence is what a fresh struct holds. */
  lemma EmptyIsDefault(schema: Schema, f: Field, v: Value)
    requires !f.cardinality.Repeated? && !TracksPresence(f) && TypedElement(schema, f.ty, v)
    requires !FieldIsSet(f, Present(v))
    ensures NormalElement(schema, f.ty, v, false) == Default(f.ty)
  {
    match f.ty
    case BoolType => assert v.i == 0;
    case Int32Type => assert v.i == 0;
    case UInt32Type => assert v.i == 0;
    case Int64Type => assert v.i == 0;
    case UInt64Type => assert v.i == 0;
    case FloatType => assert v.r == 0.0;
    case DoubleType => assert v.r == 0.0;
    case EnumType(_) => assert v.i == 0;
    case StringType => assert v.s.None? || v.s.value == "";
    case BytesType => assert v.b == [];
    case MessageType(_) => assert v.m.None?;
  }

  /** A member that is not printed holds what a fresh struct holds, up to normalisation. */
  lemma UnsetIsFresh(schema: Schema, f: Field, slot: Slot)
    requires WellFormedField(schema, f) && TypedSlot(schema, f, slot)
    requires !FieldIsSet(f, slot)
    ensures NormalSlot(schema, f, slot) == InitSlot(f)
  {
    if slot.Absent? {
      assert TracksPresence(f);
    } else if f.cardinality.Repeated? {
      assert TypedField(schema, f, slot.v) && slot.v == Many([]);
      assert NormalElements(schema, f.ty, []) == [];
    } else {
      assert TypedField(schema, f, slot.v) && !TracksPresence(f);
      EmptyIsDefault(schema, f, slot.v);
    }
  }

  /** The target once the members not in `ms` have been read. */
  predicate Restored(schema: Schema, fields: seq<Field>, m: Message, ms: seq<Member>, slots: seq<Slot>)
    requires |fields| == |slots| == |m.slots|
  {
    forall i :: 0 <= i < |fields| ==>
      slots[i] == if FieldIsSet(fields[i], m.slots[i]) && !HasKey(ms, Camel(fields[i].name))
                  then NormalSlot(schema, fields[i], m.slots[i])
                  else InitSlot(fields[i])
  }

  /** Reading one printed member moves its field, and no other, from fresh to restored. */
  lemma MemberRestored(schema: Schema, m: Message, ms: seq<Member>, slots: seq<Slot>, i: nat, v: Value)
    requires m.desc in schema && WellTyped(schema, m) && |slots| == |m.slots| && i < |m.slots|
    requires var fields := schema[m.desc];
             && WellFormedFields(schema, fields)
             && ms != [] && DistinctKeys(ms) && Restored(schema, fields, m, ms, slots)
             && FieldIsSet(fields[i], m.slots[i]) && ms[0].key == Camel(fields[i].name)
             && Present(v) == NormalSlot(schema, fields[i], m.slots[i])
    ensures Restored(schema, schema[m.desc], m, ms[1..], SetSlot(schema[m.desc], slots, i, v))
  {
    var fields := schema[m.desc];
    var rest := ms[1..];
    var after := SetSlot(fields, slots, i, v);
    forall j | 0 <= j < |fields|
      ensures after[j] == if FieldIsSet(fields[j], m.slots[j]) && !HasKey(rest, Camel(fields[j].name))
                          then NormalSlot(schema, fields[j], m.slots[j])
                          else InitSlot(fields[j])
    {
      KeyRemains(ms, Camel(fields[j].name));
      if j != i {
        assert Camel(Names(fields)[j]) != Camel(Names(fields)[i]);
        if fields[i].oneof.Some? && fields[j].oneof == fields[i].oneof {
          assert m.slots[j].Absent?;
        }
      } else {
        FirstKeyGone(ms);
      }
    }
  }

  lemma KeyRemains(ms: seq<Member>, key: string)
    requires ms != []
    ensures HasKey(ms, key) <==> ms[0].key == key || HasKey(ms[1..], key)
  {
  }

  lemma FirstKeyGone(ms: seq<Member>)
    requires ms != [] && DistinctKeys(ms)
    ensures !HasKey(ms[1..], ms[0].key) && DistinctKeys(ms[1..])
  {
  }

  lemma {:induction false} MembersRestore(schema: Schema, m: Message, ms: seq<Member>, slots: seq<Slot>)
    requires WellFormed(schema) && WellTyped(schema, m) && |slots| == |m.slots|
    requires var fields := schema[m.desc];
             && DistinctKeys(ms) && Restored(schema, fields, m, ms, slots)
             && forall member :: member in ms ==> PrintsSome(schema, fields, m, |fields|, member)
    ensures MergeAll(schema, schema[m.desc], slots, ms)
         == Some(NormalSlots(schema, schema[m.desc], m.slots))
    decreases m, 1, |ms|
  {
    var fields := schema[m.desc];
    if ms == [] {
      NormalSlotsAt(schema, fields, m.slots);
      forall i | 0 <= i < |fields|
        ensures slots[i] == NormalSlot(schema, fields[i], m.slots[i])
      {
        assert TypedSlot(schema, fields[i], m.slots[i]);
        if !FieldIsSet(fields[i], m.slots[i]) {
          UnsetIsFresh(schema, fields[i], m.slots[i]);
        }
      }
      assert slots == NormalSlots(schema, fields, m.slots);
    } else {
      assert ms[0] in ms;
      var i :| 0 <= i < |fields| && Prints(schema, fields, m, i, ms[0]);
      var v := m.slots[i].v;
      assert TypedSlot(schema, fields[i], m.slots[i]);
      PrintedKeyFindsFieldIff(Names(fields), i);
      FieldRestores(schema, fields[i], v);
      var normal := NormalField(schema, fields[i], v);
      MemberRestored(schema, m, ms, slots, i, normal);
      FirstKeyGone(ms);
      MembersRestore(schema, m, ms[1..], SetSlot(fields, slots, i, normal));
    }
  }

  /** Reading what was printed restores every message of every well-formed schema, up to the stated
      normalisation: oneofs with default values, unknown enum numbers and nested messages included. */
  lemma RoundTrip(schema: Schema, m: Message)
    requires WellFormed(schema) && WellTyped(schema, m)
    ensures ParseMessage(schema, m.desc, MessageToJson(schema, m)) == Some(Normal(schema, m))
    decreases m, 2
  {
    var fields := schema[m.desc];
    var ms := Printed(schema, fields, m, |fields|);
    var slots := InitSlots(fields);
    PrintedMembers(schema, fields, m, |fields|);
    forall i | 0 <= i < |fields|
      ensures FieldIsSet(fields[i], m.slots[i]) ==> HasKey(ms, Camel(fields[i].name))
    {
      if FieldIsSet(fields[i], m.slots[i]) {
        var member := Member(Camel(fields[i].name), FieldToJson(schema, fields[i], m.slots[i].v));
        assert Prints(schema, fields, m, i, member);
        assert member in ms;
      }
    }
    MembersRestore(schema, m, ms, slots);
  }

  // ----- the normalisation loses nothing that is printed

  lemma {:induction false} FreshPrintsNothing(schema: Schema, d: string, n: nat)
    requires d in schema && n <= |schema[d]|
    ensures Printed(schema, schema[d], Message(d, InitSlots(schema[d])), n) == []
  {
    if n > 0 {
      FreshPrintsNothing(schema, d, n - 1);
      var f := schema[d][n - 1];
      assert !FieldIsSet(f, InitSlot(f));
    }
  }

  lemma ElementPrintsNormal(schema: Schema, ty: FieldType, v: Value, nullIsEmpty: bool)
    requires WellFormed(schema) && TypedElement(schema, ty, v)
    ensures ElementToJson(schema, ty, NormalElement(schema, ty, v, nullIsEmpty))
         == ElementToJson(schema, ty, v)
    decreases v, 0
  {
    if v.Sub? {
      if v.m.Some? {
        MessagePrintsNormal(schema, v.m.value);
      } else if ty.name in schema {
        FreshPrintsNothing(schema, ty.name, |schema[ty.name]|);
      }
    }
  }

  lemma {:induction false} ElementsPrintNormal(schema: Schema, ty: FieldType, vs: seq<Value>)
    requires WellFormed(schema) && forall i :: 0 <= i < |vs| ==> TypedElement(schema, ty, vs[i])
    ensures ElementsToJson(schema, ty, NormalElements(schema, ty, vs)) == ElementsToJson(schema, ty, vs)
    decreases vs
  {
    if vs != [] {
      ElementPrintsNormal(schema, ty, vs[0], true);
      ElementsPrintNormal(schema, ty, vs[1..]);
      assert NormalElements(schema, ty, vs)[1..] == NormalElements(schema, ty, vs[1..]);
    }
  }

  lemma SlotPrintsNormal(schema: Schema, f: Field, slot: Slot)
    requires WellFormed(schema) && WellFormedField(schema, f) && TypedSlot(schema, f, slot)
    ensures var normal := NormalSlot(schema, f, slot);
            FieldIsSet(f, normal) == FieldIsSet(f, slot)
            && (slot.Present? ==> FieldToJson(schema, f, normal.v) == FieldToJson(schema, f, slot.v))
    decreases slot, 1
  {
    if slot.Present? {
      assert TypedField(schema, f, slot.v);
      if f.cardinality.Repeated? {
        ElementsPrintNormal(schema, f.ty, slot.v.vs);
      } else {
        ElementPrintsNormal(schema, f.ty, slot.v, TracksPresence(f));
      }
    }
  }

  lemma PrintedStep(schema: Schema, fields: seq<Field>, m: Message, n: nat, slot: Slot)
    requires 0 < n <= |fields| && slot == SlotAt(m, n - 1)
    ensures var f, before := fields[n - 1], Printed(schema, fields, m, n - 1);
            Printed(schema, fields, m, n)
            == if slot.Present? && FieldIsSet(f, slot) then Put(before, Camel(f.name), FieldToJson(schema, f, slot.v))
               else before
  {
  }

  lemma SlotOfNormal(schema: Schema, m: Message, i: nat)
    requires m.desc in schema && |m.slots| == |schema[m.desc]| && i < |m.slots|
    ensures SlotAt(Normal(schema, m), i) == NormalSlot(schema, schema[m.desc][i], m.slots[i])
  {
    NormalSlotsAt(schema, schema[m.desc], m.slots);
  }

  lemma {:induction false} PrintedNormal(schema: Schema, m: Message, n: nat)
    requires WellFormed(schema) && WellTyped(schema, m) && n <= |schema[m.desc]|
    ensures Printed(schema, schema[m.desc], Normal(schema, m), n) == Printed(schema, schema[m.desc], m, n)
    decreases m, 2, n
  {
    if n > 0 {
      var f, slot := schema[m.desc][n - 1], m.slots[n - 1];
      var normal := Normal(schema, m);
      PrintedNormal(schema, m, n - 1);
      SlotOfNormal(schema, m, n - 1);
      assert TypedSlot(schema, f, slot);
      SlotPrintsNormal(schema, f, slot);
      PrintedStep(schema, schema[m.desc], m, n, slot);
      PrintedStep(schema, schema[m.desc], normal, n, NormalSlot(schema, f, slot));
    }
  }

  lemma MessagePrintsNormal(schema: Schema, m: Message)
    requires WellFormed(schema) && WellTyped(schema, m)
    ensures MessageToJson(schema, Normal(schema, m)) == MessageToJson(schema, m)
    decreases m, 3
  {
    PrintedNormal(schema, m, |schema[m.desc]|);
  }

  /** Two messages print alike exactly when they have one normal form. */
  lemma PrintedAlikeIff(schema: Schema, m: Message, n: Message)
    requires WellFormed(schema) && WellTyped(schema, m) && WellTyped(schema, n) && m.desc == n.desc
    ensures MessageToJson(schema, m) == MessageToJson(schema, n) <==> Normal(schema, m) == Normal(schema, n)
  {
    RoundTrip(schema, m);
    RoundTrip(schema, n);
    MessagePrintsNormal(schema, m);
    MessagePrintsNormal(schema, n);
  }
}
