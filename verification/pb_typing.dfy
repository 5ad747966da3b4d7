/**
 What reading JSON can produce: whatever is read, from any JSON value, is a well-typed message in
 normal form, so that printing and reading it again changes nothing.
 */
module PbTyping {
  import opened Bytes
  import opened Options
  import opened Naming
  import opened PbSchema
  import opened PbJson

  /** Enum numbers are C integers. */
  predicate NumbersFit(e: EnumDescriptor)
  {
    forall v :: v in e.values ==> -0x8000_0000 <= v.number < 0x8000_0000
  }

  predicate EnumsFit(schema: Schema)
  {
    forall d, f :: d in schema && f in schema[d] && f.ty.EnumType? ==> NumbersFit(f.ty.desc)
  }

  predicate Sound(schema: Schema)
  {
    WellFormed(schema) && EnumsFit(schema)
  }

  predicate SoundType(schema: Schema, ty: FieldType)
  {
    && (ty.EnumType? ==> ConsistentEnum(ty.desc) && NumbersFit(ty.desc))
    && (ty.MessageType? ==> ty.name in schema)
  }

  lemma SoundField(schema: Schema, d: string, i: nat)
    requires Sound(schema) && d in schema && i < |schema[d]|
    ensures WellFormedField(schema, schema[d][i]) && SoundType(schema, schema[d][i].ty)
  {
    assert schema[d][i] in schema[d];
  }

  // ----- scalars

  lemma {:induction false} CStrIsCString(s: string)
    ensures CString(CStr(s))
  {
    if s != "" && s[0] != '\0' {
      CStrIsCString(s[1..]);
    }
  }

  lemma NamedIsValue(e: EnumDescriptor, name: string)
    requires ConsistentEnum(e) && ByName(e, name).Some?
    ensures ByName(e, name).value in e.values
  {
  }

  /** The C value that reading stores has the member's width, and reading it again changes nothing. */
  lemma ParsedScalarTyped(schema: Schema, ty: FieldType, j: Json, nullIsEmpty: bool)
    requires SoundType(schema, ty) && ParseScalar(j, ty).Some?
    ensures var v := ParseScalar(j, ty).value;
            TypedElement(schema, ty, v) && NormalElement(schema, ty, v, nullIsEmpty) == v
  {
    match ty
    case EnumType(e) =>
      if j.JStr? {
        NamedIsValue(e, j.s);
      }
    case StringType => CStrIsCString(j.s);
    case _ =>
  }

  // ----- storing a member

  predicate TypedSlots(schema: Schema, fields: seq<Field>, slots: seq<Slot>)
  {
    && |slots| == |fields|
    && (forall i :: 0 <= i < |slots| ==> TypedSlot(schema, fields[i], slots[i]))
    && OneofsExclusive(fields, slots)
  }

  predicate NormalThroughout(schema: Schema, fields: seq<Field>, slots: seq<Slot>)
    requires |slots| == |fields|
  {
    forall i :: 0 <= i < |slots| ==> NormalSlot(schema, fields[i], slots[i]) == slots[i]
  }

  /** Storing a typed value keeps every member typed and at most one member of each oneof chosen, and
      the member stored is the one that is then read. */
  lemma SetSlotKeepsTyped(schema: Schema, fields: seq<Field>, slots: seq<Slot>, i: nat, v: Value)
    requires TypedSlots(schema, fields, slots) && i < |fields| && TypedField(schema, fields[i], v)
    ensures TypedSlots(schema, fields, SetSlot(fields, slots, i, v))
    ensures SetSlot(fields, slots, i, v)[i] == Present(v)
  {
    var after := SetSlot(fields, slots, i, v);
    forall k | 0 <= k < |after|
      ensures TypedSlot(schema, fields[k], after[k])
    {
      assert TypedSlot(schema, fields[k], slots[k]);
    }
    assert OneofsExclusive(fields, after);
  }

  lemma SetSlotKeepsNormal(schema: Schema, fields: seq<Field>, slots: seq<Slot>, i: nat, v: Value)
    requires |slots| == |fields| && NormalThroughout(schema, fields, slots) && i < |fields|
    requires NormalField(schema, fields[i], v) == v
    ensures NormalThroughout(schema, fields, SetSlot(fields, slots, i, v))
  {
  }

  lemma FreshIsTyped(schema: Schema, fields: seq<Field>)
    requires forall i :: 0 <= i < |fields| ==> WellFormedField(schema, fields[i])
    ensures TypedSlots(schema, fields, InitSlots(fields)) && NormalThroughout(schema, fields, InitSlots(fields))
  {
    forall i | 0 <= i < |fields|
      ensures TypedSlot(schema, fields[i], InitSlot(fields[i]))
      ensures NormalSlot(schema, fields[i], InitSlot(fields[i])) == InitSlot(fields[i])
    {
      FreshSlot(schema, fields[i]);
    }
  }

  lemma FreshSlot(schema: Schema, f: Field)
    requires WellFormedField(schema, f)
    ensures TypedSlot(schema, f, InitSlot(f)) && NormalSlot(schema, f, InitSlot(f)) == InitSlot(f)
  {
    if !TracksPresence(f) && !f.cardinality.Repeated? {
      var v := Default(f.ty);
      assert f.ty.MessageType? ==> v == Sub(None);
      assert TypedElement(schema, f.ty, v);
    }
  }

  // ----- messages

  lemma ParsedElementTyped(schema: Schema, ty: FieldType, j: Json, nullIsEmpty: bool)
    requires Sound(schema) && SoundType(schema, ty) && ParseElement(schema, ty, j).Some?
    ensures var v := ParseElement(schema, ty, j).value;
            TypedElement(schema, ty, v) && NormalElement(schema, ty, v, nullIsEmpty) == v
    decreases j, 4
  {
    if ty.MessageType? {
      ParsedIsTypedAndNormal(schema, ty.name, j);
    } else {
      ParsedScalarTyped(schema, ty, j, nullIsEmpty);
    }
  }

  lemma {:induction false} ParsedElementsTyped(schema: Schema, ty: FieldType, js: seq<Json>)
    requires Sound(schema) && SoundType(schema, ty) && ParseElements(schema, ty, js).Some?
    ensures var vs := ParseElements(schema, ty, js).value;
            NormalElements(schema, ty, vs) == vs && forall i :: 0 <= i < |vs| ==> TypedElement(schema, ty, vs[i])
    decreases js
  {
    if js != [] {
      ParsedElementTyped(schema, ty, js[0], true);
      ParsedElementsTyped(schema, ty, js[1..]);
      var vs := ParseElements(schema, ty, js).value;
      assert vs[1..] == ParseElements(schema, ty, js[1..]).value;
    }
  }

  lemma ParsedFieldTyped(schema: Schema, f: Field, j: Json)
    requires Sound(schema) && SoundType(schema, f.ty) && ParseField(schema, f, j).Some?
    ensures var v := ParseField(schema, f, j).value;
            TypedField(schema, f, v) && NormalField(schema, f, v) == v
    decreases j, 5
  {
    if f.cardinality.Repeated? {
      ParsedElementsTyped(schema, f.ty, j.elements);
    } else {
      ParsedElementTyped(schema, f.ty, j, TracksPresence(f));
    }
  }

  lemma {:induction false} MergedTyped(schema: Schema, d: string, slots: seq<Slot>, ms: seq<Member>)
    requires Sound(schema) && d in schema
    requires TypedSlots(schema, schema[d], slots) && NormalThroughout(schema, schema[d], slots)
    requires MergeAll(schema, schema[d], slots, ms).Some?
    ensures var after := MergeAll(schema, schema[d], slots, ms).value;
            TypedSlots(schema, schema[d], after) && NormalThroughout(schema, schema[d], after)
    decreases ms
  {
    if ms != [] {
      var fields := schema[d];
      var found := FindField(Names(fields), ms[0].key);
      if found.None? {
        MergedTyped(schema, d, slots, ms[1..]);
      } else {
        var i := found.value;
        SoundField(schema, d, i);
        ParsedFieldTyped(schema, fields[i], ms[0].value);
        var v := ParseField(schema, fields[i], ms[0].value).value;
        SetSlotKeepsTyped(schema, fields, slots, i, v);
        SetSlotKeepsNormal(schema, fields, slots, i, v);
        MergedTyped(schema, d, SetSlot(fields, slots, i, v), ms[1..]);
      }
    }
  }

  /** Whatever is read, from any JSON value, is a well-typed message in normal form. */
  lemma ParsedIsTypedAndNormal(schema: Schema, d: string, j: Json)
    requires Sound(schema) && ParseMessage(schema, d, j).Some?
    ensures var m := ParseMessage(schema, d, j).value;
            WellTyped(schema, m) && Normal(schema, m) == m && m.desc == d
    decreases j, 3
  {
    var fields := schema[d];
    forall i | 0 <= i < |fields|
      ensures WellFormedField(schema, fields[i])
    {
      SoundField(schema, d, i);
    }
    FreshIsTyped(schema, fields);
    MergedTyped(schema, d, InitSlots(fields), j.members);
    var m := ParseMessage(schema, d, j).value;
    NormalSlotsAt(schema, fields, m.slots);
    assert NormalSlots(schema, fields, m.slots) == m.slots;
  }

  /** Printing what was read and reading it again changes nothing: read, print, read is read. */
  lemma ReadingIsStable(schema: Schema, d: string, j: Json)
    requires Sound(schema) && ParseMessage(schema, d, j).Some?
    ensures var m := ParseMessage(schema, d, j);
            ParseMessage(schema, d, MessageToJson(schema, m.value)) == m
  {
    ParsedIsTypedAndNormal(schema, d, j);
    RoundTrip(schema, ParseMessage(schema, d, j).value);
  }
}
