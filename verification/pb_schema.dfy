/**
 Protobuf messages as PbCJson.cpp sees them: descriptors, the values a C struct holds for them, and
 what protobuf_c_message_init leaves in a fresh struct.
 */
module PbSchema {
  import opened Bytes
  import opened Options
  import opened Naming

  datatype EnumValue = EnumValue(name: string, number: int)

  datatype EnumIndex = EnumIndex(name: string, index: nat)

  datatype EnumDescriptor = EnumDescriptor(values: seq<EnumValue>, byName: seq<EnumIndex>)

  /** The wire types that are treated alike share a constructor. */
  datatype FieldType =
    | BoolType
    | Int32Type
    | UInt32Type
    | Int64Type
    | UInt64Type
    | FloatType
    | DoubleType
    | EnumType(desc: EnumDescriptor)
    | StringType
    | BytesType
    | MessageType(name: string)

  /** `Optional(true)` carries its own has-flag in the struct. */
  datatype Label = Plain | Optional(hasFlag: bool) | Repeated

  /** Members of one oneof share a case number, named here by the group. */
  datatype Field = Field(name: string, cardinality: Label, oneof: Option<nat>, ty: FieldType)

  /** Message descriptors by name; they may refer to each other and to themselves. */
  type Schema = map<string, seq<Field>>

  /** One storage cell. `Number` holds integers, enum numbers and the raw C boolean. */
  datatype Value =
    | Number(i: int)
    | Floating(r: real)
    | Text(s: Option<string>)
    | Data(b: seq<byte>)
    | Sub(m: Option<Message>)
    | Many(vs: seq<Value>)

  /** `Absent`: the oneof case names another member, or the has-flag is clear. */
  datatype Slot = Absent | Present(v: Value)

  /** One slot for each field of the descriptor, in its order. */
  datatype Message = Message(desc: string, slots: seq<Slot>)

  function Names(fields: seq<Field>): (names: seq<string>)
    ensures |names| == |fields|
    ensures forall i :: 0 <= i < |fields| ==> names[i] == fields[i].name
  {
    seq(|fields|, i requires 0 <= i < |fields| => fields[i].name)
  }

  /** Presence is recorded beside the value rather than read off it. */
  predicate TracksPresence(f: Field)
  {
    f.oneof.Some? || f.cardinality == Optional(true)
  }

  function SlotAt(m: Message, i: nat): Slot
  {
    if i < |m.slots| then m.slots[i] else Absent
  }

  // ----- enums

  function ByNumber(e: EnumDescriptor, number: int): (r: Option<EnumValue>)
    ensures r.Some? ==> r.value in e.values && r.value.number == number
    decreases |e.values|
  {
    if e.values == [] then None
    else if e.values[0].number == number then Some(e.values[0])
    else ByNumber(e.(values := e.values[1..]), number)
  }

  function IndexByName(index: seq<EnumIndex>, name: string): (r: Option<nat>)
    ensures r.Some? ==> exists k :: 0 <= k < |index| && index[k] == EnumIndex(name, r.value)
  {
    if index == [] then None
    else if index[0].name == name then Some(index[0].index)
    else IndexByName(index[1..], name)
  }

  function ValueByName(values: seq<EnumValue>, name: string): (r: Option<EnumValue>)
    ensures r.Some? ==> r.value in values && r.value.name == name
    ensures r.None? ==> forall v :: v in values ==> v.name != name
  {
    if values == [] then None
    else if values[0].name == name then Some(values[0])
    else ValueByName(values[1..], name)
  }

  /** The name index first, then the value table itself. */
  function ByName(e: EnumDescriptor, name: string): Option<EnumValue>
  {
    match IndexByName(e.byName, name)
    case Some(i) => if i < |e.values| then Some(e.values[i]) else None
    case None => ValueByName(e.values, name)
  }

  /** Wherever a name occurs it stands for one number. */
  predicate ConsistentEnum(e: EnumDescriptor)
  {
    && (forall k :: 0 <= k < |e.byName| ==> e.byName[k].index < |e.values|)
    && (forall v, w :: v in e.values && w in e.values && v.name == w.name ==> v.number == w.number)
    && (forall k, v :: 0 <= k < |e.byName| && v in e.values && e.byName[k].name == v.name ==>
          e.values[e.byName[k].index].number == v.number)
  }

  /** A printed enum name reads back as the number it was printed for. */
  lemma EnumNameRestoresNumber(e: EnumDescriptor, number: int)
    requires ConsistentEnum(e) && ByNumber(e, number).Some?
    ensures var named := ByName(e, ByNumber(e, number).value.name);
            named.Some? && named.value.number == number
  {
  }

  // ----- well-formed schemas and messages

  predicate WellFormedField(schema: Schema, f: Field)
  {
    && (f.oneof.Some? ==> f.cardinality == Plain)
    && (f.ty.EnumType? ==> ConsistentEnum(f.ty.desc))
    && (f.ty.MessageType? ==> f.ty.name in schema)
  }

  /** Every printed key leads back to its own field, and every field is consistent. */
  predicate WellFormedFields(schema: Schema, fields: seq<Field>)
  {
    && CamelDistinct(Names(fields))
    && (forall i :: 0 <= i < |fields| ==> !Shadowed(Names(fields), i))
    && (forall i :: 0 <= i < |fields| ==> WellFormedField(schema, fields[i]))
  }

  predicate WellFormed(schema: Schema)
  {
    forall d :: d in schema ==> WellFormedFields(schema, schema[d])
  }

  predicate CString(s: string)
  {
    '\0' !in s
  }

  predicate TypedElement(schema: Schema, ty: FieldType, v: Value)
    decreases v, 0
  {
    match ty
    case BoolType => v.Number?
    case Int32Type => v.Number? && -0x8000_0000 <= v.i < 0x8000_0000
    case UInt32Type => v.Number? && 0 <= v.i < 0x1_0000_0000
    case Int64Type => v.Number? && -0x8000_0000_0000_0000 <= v.i < 0x8000_0000_0000_0000
    case UInt64Type => v.Number? && 0 <= v.i < 0x1_0000_0000_0000_0000
    case FloatType => v.Floating?
    case DoubleType => v.Floating?
    case EnumType(_) => v.Number? && -0x8000_0000 <= v.i < 0x8000_0000
    case StringType => v.Text? && (v.s.Some? ==> CString(v.s.value))
    case BytesType => v.Data?
    case MessageType(d) => v.Sub? && (v.m.Some? ==> v.m.value.desc == d && WellTyped(schema, v.m.value))
  }

  predicate TypedField(schema: Schema, f: Field, v: Value)
    decreases v, 1
  {
    if f.cardinality.Repeated? then
      v.Many? && forall i :: 0 <= i < |v.vs| ==> TypedElement(schema, f.ty, v.vs[i])
    else TypedElement(schema, f.ty, v)
  }

  predicate TypedSlot(schema: Schema, f: Field, slot: Slot)
    decreases slot, 2
  {
    match slot
    case Absent => TracksPresence(f)
    case Present(v) => TypedField(schema, f, v)
  }

  predicate OneofsExclusive(fields: seq<Field>, slots: seq<Slot>)
    requires |fields| == |slots|
  {
    forall i, j :: 0 <= i < j < |fields| && slots[i].Present? && slots[j].Present? ==>
      fields[i].oneof.None? || fields[i].oneof != fields[j].oneof
  }

  predicate WellTyped(schema: Schema, m: Message)
    decreases m, 3
  {
    && m.desc in schema
    && |m.slots| == |schema[m.desc]|
    && (forall i :: 0 <= i < |m.slots| ==> TypedSlot(schema, schema[m.desc][i], m.slots[i]))
    && OneofsExclusive(schema[m.desc], m.slots)
  }

  // ----- a fresh struct

  function Default(ty: FieldType): Value
  {
    match ty
    case FloatType => Floating(0.0)
    case DoubleType => Floating(0.0)
    case StringType => Text(Some(""))
    case BytesType => Data([])
    case MessageType(_) => Sub(None)
    case _ => Number(0)
  }

  function InitSlot(f: Field): Slot
  {
    if TracksPresence(f) then Absent
    else if f.cardinality.Repeated? then Present(Many([]))
    else Present(Default(f.ty))
  }

  function InitSlots(fields: seq<Field>): (slots: seq<Slot>)
    ensures |slots| == |fields|
    ensures forall i :: 0 <= i < |fields| ==> slots[i] == InitSlot(fields[i])
  {
    seq(|fields|, i requires 0 <= i < |fields| => InitSlot(fields[i]))
  }

  /** Stores a member; choosing one member of a oneof retires the others. */
  function SetSlot(fields: seq<Field>, slots: seq<Slot>, i: nat, v: Value): (r: seq<Slot>)
    requires i < |fields| == |slots|
    ensures |r| == |slots|
    ensures forall j :: 0 <= j < |slots| ==>
              r[j] == if j == i then Present(v)
                      else if fields[i].oneof.Some? && fields[j].oneof == fields[i].oneof then Absent
                      else slots[j]
  {
    seq(|slots|, j requires 0 <= j < |slots| =>
      if j == i then Present(v)
      else if fields[i].oneof.Some? && fields[j].oneof == fields[i].oneof then Absent
      else slots[j])
  }

  // ----- what a trip through JSON cannot tell apart

  /** A C boolean becomes zero or one and a null string becomes the empty one. A null message
      becomes an empty one where its presence is recorded elsewhere than in the reference itself. */
  function NormalElement(schema: Schema, ty: FieldType, v: Value, nullIsEmpty: bool): Value
    decreases v, 0
  {
    match v
    case Number(i) => if ty.BoolType? then Number(if i != 0 then 1 else 0) else v
    case Text(s) => Text(Some(if s.Some? then s.value else ""))
    case Sub(m) =>
      if m.Some? then Sub(Some(Normal(schema, m.value)))
      else if nullIsEmpty && ty.MessageType? && ty.name in schema
      then Sub(Some(Message(ty.name, InitSlots(schema[ty.name]))))
      else v
    case _ => v
  }

  function NormalElements(schema: Schema, ty: FieldType, vs: seq<Value>): seq<Value>
    decreases vs
  {
    if vs == [] then []
    else [NormalElement(schema, ty, vs[0], true)] + NormalElements(schema, ty, vs[1..])
  }

  function NormalField(schema: Schema, f: Field, v: Value): Value
    decreases v, 1
  {
    if f.cardinality.Repeated? && v.Many? then Many(NormalElements(schema, f.ty, v.vs))
    else NormalElement(schema, f.ty, v, TracksPresence(f))
  }

  function NormalSlot(schema: Schema, f: Field, slot: Slot): Slot
    decreases slot, 2
  {
    match slot
    case Absent => Absent
    case Present(v) => Present(NormalField(schema, f, v))
  }

  function NormalSlots(schema: Schema, fields: seq<Field>, slots: seq<Slot>): (r: seq<Slot>)
    ensures |r| == |slots|
    decreases slots
  {
    if slots == [] then []
    else
      [if fields == [] then slots[0] else NormalSlot(schema, fields[0], slots[0])]
      + NormalSlots(schema, if fields == [] then [] else fields[1..], slots[1..])
  }

  function Normal(schema: Schema, m: Message): Message
    decreases m, 3
  {
    if m.desc in schema then Message(m.desc, NormalSlots(schema, schema[m.desc], m.slots)) else m
  }

  lemma {:induction false} NormalSlotsAt(schema: Schema, fields: seq<Field>, slots: seq<Slot>)
    requires |fields| == |slots|
    ensures forall i :: 0 <= i < |slots| ==>
              NormalSlots(schema, fields, slots)[i] == NormalSlot(schema, fields[i], slots[i])
    decreases |slots|
  {
    if slots != [] {
      NormalSlotsAt(schema, fields[1..], slots[1..]);
    }
  }
}
