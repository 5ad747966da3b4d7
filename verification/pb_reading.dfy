/**
 What any JSON object is read as: which JSON forms each scalar type takes and what it stores for
 them, which members of an object count, which of several members for one field wins, and that a
 field may be spelt by its own name as well as by the key it is printed under.
 */
module PbReading {
  import opened Bytes
  import opened Options
  import opened Naming
  import opened PbSchema
  import opened PbJson

  // ----- scalars

  predicate IsInteger(ty: FieldType)
  {
    ty.Int32Type? || ty.UInt32Type? || ty.Int64Type? || ty.UInt64Type? || ty.EnumType?
  }

  predicate IsFloating(ty: FieldType)
  {
    ty.FloatType? || ty.DoubleType?
  }

  /** The least value of an integer type and the number of its values. */
  function Least(ty: FieldType): int
    requires IsInteger(ty)
  {
    match ty
    case UInt32Type => 0
    case UInt64Type => 0
    case Int64Type => -0x8000_0000_0000_0000
    case _ => -0x8000_0000
  }

  function Width(ty: FieldType): nat
    requires IsInteger(ty)
  {
    if ty.Int64Type? || ty.UInt64Type? then 0x1_0000_0000_0000_0000 else 0x1_0000_0000
  }

  predicate Fits(ty: FieldType, n: int)
    requires IsInteger(ty)
  {
    Least(ty) <= n < Least(ty) + Width(ty)
  }

  lemma Wraps(x: int, least: int, width: nat, n: int)
    requires width > 0 && n == (x - least) % width + least
    ensures least <= n < least + width && (n - x) % width == 0
    ensures least <= x < least + width ==> n == x
  {
    var q := (x - least) / width;
    assert x - least == q * width + (x - least) % width;
    assert n - x == -q * width;
    MultipleOf(-q, width);
    if least <= x < least + width {
      assert (x - least) % width == x - least;
    }
  }

  lemma MultipleOf(k: int, width: nat)
    requires width > 0
    ensures k * width % width == 0
  {
    var x := k * width;
    assert x == x / width * width + x % width;
    assert (k - x / width) * width == x % width;
    OnlyZero(k - x / width, width);
  }

  lemma OnlyZero(k: int, width: nat)
    requires 0 <= k * width < width
    ensures k == 0
  {
  }

  lemma IntegerStored(ty: FieldType, i: int)
    requires IsInteger(ty)
    ensures ParseScalar(JInt(i), ty) == Some(Number((i - Least(ty)) % Width(ty) + Least(ty)))
  {
  }

  /** An integer is stored as itself where it fits, and otherwise as what is left of it in the
      type's width. */
  lemma IntegersRead(ty: FieldType, i: int)
    ensures IsInteger(ty) ==>
              var stored := ParseScalar(JInt(i), ty);
              stored.Some? && stored.value.Number? && Fits(ty, stored.value.i)
              && (stored.value.i - i) % Width(ty) == 0
    ensures IsInteger(ty) && Fits(ty, i) ==> ParseScalar(JInt(i), ty) == Some(Number(i))
    ensures IsFloating(ty) ==> ParseScalar(JInt(i), ty) == Some(Floating(i as real))
  {
    if IsInteger(ty) {
      IntegerStored(ty, i);
      Wraps(i, Least(ty), Width(ty), (i - Least(ty)) % Width(ty) + Least(ty));
    }
  }

  /** A fraction is stored as itself in the floating types, and loses what lies behind its point in
      the integer types that can hold the rest. */
  lemma FractionsRead(ty: FieldType, r: real, n: int)
    ensures IsFloating(ty) ==> ParseScalar(JFloat(r), ty) == Some(Floating(r))
    ensures IsInteger(ty) && Fits(ty, n) && (if r >= 0.0 then n as real <= r < (n + 1) as real
                                             else (n - 1) as real < r <= n as real) ==>
              ParseScalar(JFloat(r), ty) == Some(Number(n))
  {
    if IsInteger(ty) && Fits(ty, n) {
      if r >= 0.0 && n as real <= r < (n + 1) as real {
        assert Truncate(r) == n;
        IntegersRead(ty, n);
      } else if r < 0.0 && (n - 1) as real < r <= n as real {
        assert Truncate(r) == n;
        IntegersRead(ty, n);
      }
    }
  }

  /** Booleans pass for one and zero, but not where the library converts to a number type of its own. */
  lemma BooleansRead(ty: FieldType, b: bool)
    ensures ty.BoolType? || ty.Int32Type? || ty.UInt32Type? || ty.EnumType? ==>
              ParseScalar(JBool(b), ty) == Some(Number(if b then 1 else 0))
    ensures ty.FloatType? ==> ParseScalar(JBool(b), ty) == Some(Floating(if b then 1.0 else 0.0))
    ensures ty.Int64Type? || ty.UInt64Type? || ty.DoubleType? || ty.StringType? || ty.BytesType? ==>
              ParseScalar(JBool(b), ty).None?
  {
  }

  predicate FirstNul(s: string, n: nat)
  {
    n <= |s| && (forall i :: 0 <= i < n ==> s[i] != '\0') && (n < |s| ==> s[n] == '\0')
  }

  lemma {:induction false} CStrStops(s: string, n: nat)
    requires FirstNul(s, n)
    ensures CStr(s) == s[..n]
  {
    if s != "" && s[0] != '\0' {
      CStrStops(s[1..], n - 1);
      assert [s[0]] + s[1..][..n - 1] == s[..n];
    }
  }

  /** A string is stored up to its first NUL. Octets are what base64 makes of the string. Only names
      of values are read into an enum, and no string into a number. */
  lemma StringsRead(ty: FieldType, s: string, n: nat)
    requires FirstNul(s, n)
    ensures ty.StringType? ==> ParseScalar(JStr(s), ty) == Some(Text(Some(s[..n])))
    ensures ty.BytesType? ==>
              var bytes := Base64.Decode(s);
              ParseScalar(JStr(s), ty) == if bytes.Some? then Some(Data(bytes.value)) else None
    ensures ty.BoolType? || IsFloating(ty) || (IsInteger(ty) && !ty.EnumType?) ==> ParseScalar(JStr(s), ty).None?
  {
    CStrStops(s, n);
  }

  /** `name` stands for `number`, in the name index or in the value table. */
  predicate Stands(e: EnumDescriptor, name: string, number: int)
  {
    || (exists k :: 0 <= k < |e.byName| && e.byName[k].name == name && e.byName[k].index < |e.values|
                 && e.values[e.byName[k].index].number == number)
    || (exists v :: v in e.values && v.name == name && v.number == number)
  }

  /** A name is read as a number it stands for, and refused exactly when it stands for none. */
  lemma NamesRead(e: EnumDescriptor, name: string)
    requires ConsistentEnum(e)
    ensures var read := ParseScalar(JStr(name), EnumType(e));
            if read.Some? then read.value.Number? && Stands(e, name, read.value.i)
            else forall number :: !Stands(e, name, number)
  {
    IndexedIff(e.byName, name);
  }

  lemma {:induction false} IndexedIff(index: seq<EnumIndex>, name: string)
    ensures IndexByName(index, name).Some? <==> exists k :: 0 <= k < |index| && index[k].name == name
  {
    if index != [] {
      IndexedIff(index[1..], name);
      assert forall k :: 1 <= k < |index| ==> index[k] == index[1..][k - 1];
    }
  }

  /** Nothing else is read into a scalar. */
  lemma OthersRefused(ty: FieldType, j: Json)
    ensures !ty.MessageType? && (j.JNull? || j.JArr? || j.JObj?) ==> ParseScalar(j, ty).None?
    ensures ty.BoolType? ==> (ParseScalar(j, ty).Some? <==> j.JBool?)
    ensures ty.StringType? ==> (ParseScalar(j, ty).Some? <==> j.JStr?)
    ensures ty.BytesType? && !j.JStr? ==> ParseScalar(j, ty).None?
  {
  }

  // ----- fields

  lemma {:induction false} ElementsReadIff(schema: Schema, ty: FieldType, js: seq<Json>, vs: seq<Value>)
    ensures ParseElements(schema, ty, js) == Some(vs)
       <==> |vs| == |js| && forall k :: 0 <= k < |js| ==> ParseElement(schema, ty, js[k]) == Some(vs[k])
    decreases |js|
  {
    if js != [] && vs != [] {
      ElementsReadIff(schema, ty, js[1..], vs[1..]);
      assert [vs[0]] + vs[1..] == vs;
      assert forall k :: 1 <= k < |js| ==> js[k] == js[1..][k - 1];
      assert |vs| == |js| ==> forall k :: 1 <= k < |vs| ==> vs[k] == vs[1..][k - 1];
    }
  }

  /** A repeated field takes an array, and nothing else, each of whose elements it can read; any other
      field takes one element. */
  lemma FieldReadIff(schema: Schema, f: Field, j: Json, v: Value)
    ensures ParseField(schema, f, j) == Some(v)
       <==> if f.cardinality.Repeated?
            then j.JArr? && v.Many? && |v.vs| == |j.elements|
                 && forall k :: 0 <= k < |v.vs| ==> ParseElement(schema, f.ty, j.elements[k]) == Some(v.vs[k])
            else ParseElement(schema, f.ty, j) == Some(v)
  {
    if j.JArr? && v.Many? {
      ElementsReadIff(schema, f.ty, j.elements, v.vs);
    }
  }

  /** A nested message is read, from an object and from nothing else, as that message is read alone. */
  lemma NestedReadIff(schema: Schema, d: string, j: Json, v: Value)
    ensures ParseElement(schema, MessageType(d), j) == Some(v)
       <==> v.Sub? && v.m.Some? && ParseMessage(schema, d, j) == v.m
  {
  }

  // ----- objects

  /** The field the key leads to. */
  function Led(fields: seq<Field>, member: Member): (r: Option<nat>)
    ensures r.Some? ==> r.value < |fields|
  {
    FindField(Names(fields), member.key)
  }

  predicate Readable(schema: Schema, fields: seq<Field>, member: Member)
  {
    var i := Led(fields, member);
    i.Some? ==> ParseField(schema, fields[i.value], member.value).Some?
  }

  lemma {:induction false} MergedIff(schema: Schema, fields: seq<Field>, slots: seq<Slot>, ms: seq<Member>)
    requires |slots| == |fields|
    ensures MergeAll(schema, fields, slots, ms).Some?
       <==> forall k :: 0 <= k < |ms| ==> Readable(schema, fields, ms[k])
    decreases |ms|
  {
    if ms != [] {
      var i := Led(fields, ms[0]);
      assert forall k :: 1 <= k < |ms| ==> ms[k] == ms[1..][k - 1];
      if i.None? {
        MergedIff(schema, fields, slots, ms[1..]);
      } else if Readable(schema, fields, ms[0]) {
        var v := ParseField(schema, fields[i.value], ms[0].value).value;
        MergedIff(schema, fields, SetSlot(fields, slots, i.value, v), ms[1..]);
      }
    }
  }

  /** A message is read from an object, of a descriptor there is, whose members are each either
      unknown or readable. */
  lemma MessageReadIff(schema: Schema, d: string, j: Json)
    ensures ParseMessage(schema, d, j).Some?
       <==> d in schema && j.JObj?
            && forall k :: 0 <= k < |j.members| ==> Readable(schema, schema[d], j.members[k])
  {
    if d in schema && j.JObj? {
      MergedIff(schema, schema[d], InitSlots(schema[d]), j.members);
    }
  }

  /** Storing field `j` also settles field `i`: they are one field or members of one oneof. */
  predicate Settles(fields: seq<Field>, j: nat, i: nat)
    requires i < |fields| && j < |fields|
  {
    j == i || (fields[i].oneof.Some? && fields[j].oneof == fields[i].oneof)
  }

  predicate Touches(fields: seq<Field>, member: Member, i: nat)
    requires i < |fields|
  {
    var j := Led(fields, member);
    j.Some? && Settles(fields, j.value, i)
  }

  /** What the last member to touch field `i` leaves there. */
  function Left(schema: Schema, fields: seq<Field>, member: Member, i: nat): Slot
    requires i < |fields| && Touches(fields, member, i) && Readable(schema, fields, member)
  {
    if Led(fields, member) == Some(i) then Present(ParseField(schema, fields[i], member.value).value) else Absent
  }

  lemma {:induction false} MergedAt(schema: Schema, fields: seq<Field>, slots: seq<Slot>, ms: seq<Member>,
                                    i: nat, k: nat)
    requires |slots| == |fields| && i < |fields| && k <= |ms| && MergeAll(schema, fields, slots, ms).Some?
    requires k < |ms| ==> Touches(fields, ms[k], i) && Readable(schema, fields, ms[k])
    requires forall l :: (if k < |ms| then k + 1 else 0) <= l < |ms| ==> !Touches(fields, ms[l], i)
    ensures MergeAll(schema, fields, slots, ms).value[i]
         == if k < |ms| then Left(schema, fields, ms[k], i) else slots[i]
    decreases |ms|
  {
    if ms != [] {
      var j := Led(fields, ms[0]);
      var after := if j.None? then slots
                   else SetSlot(fields, slots, j.value, ParseField(schema, fields[j.value], ms[0].value).value);
      assert MergeAll(schema, fields, slots, ms) == MergeAll(schema, fields, after, ms[1..]);
      var rest := ms[1..];
      assert forall l :: 0 <= l < |rest| ==> rest[l] == ms[l + 1];
      MergedAt(schema, fields, after, rest, i, if k == |ms| || k == 0 then |rest| else k - 1);
    }
  }

  /** Of several members that touch one field the last wins: it leaves the value it gives, or clears
      the field when it chooses another member of its oneof. */
  lemma LastMemberWins(schema: Schema, d: string, j: Json, i: nat, k: nat)
    requires ParseMessage(schema, d, j).Some? && i < |schema[d]| && k < |j.members|
    requires Touches(schema[d], j.members[k], i)
    requires forall l :: k < l < |j.members| ==> !Touches(schema[d], j.members[l], i)
    ensures Readable(schema, schema[d], j.members[k])
    ensures ParseMessage(schema, d, j).value.slots[i] == Left(schema, schema[d], j.members[k], i)
  {
    MessageReadIff(schema, d, j);
    MergedAt(schema, schema[d], InitSlots(schema[d]), j.members, i, k);
  }

  /** A field that no member touches is left as in a fresh struct. */
  lemma UntouchedIsFresh(schema: Schema, d: string, j: Json, i: nat)
    requires ParseMessage(schema, d, j).Some? && i < |schema[d]|
    requires forall l :: 0 <= l < |j.members| ==> !Touches(schema[d], j.members[l], i)
    ensures ParseMessage(schema, d, j).value.slots[i] == InitSlot(schema[d][i])
  {
    MergedAt(schema, schema[d], InitSlots(schema[d]), j.members, i, |j.members|);
  }

  // ----- spelling and order

  /** No two members have a say in one field. */
  predicate Unambiguous(fields: seq<Field>, ms: seq<Member>)
  {
    forall k, l, i :: 0 <= k < l < |ms| && 0 <= i < |fields| && Touches(fields, ms[k], i) ==> !Touches(fields, ms[l], i)
  }

  /** The two members give one field values that read alike. */
  predicate GiveAlike(schema: Schema, fields: seq<Field>, a: Member, b: Member)
  {
    var i := Led(fields, a);
    i.Some? && Led(fields, b) == i
    && ParseField(schema, fields[i.value], a.value) == ParseField(schema, fields[i.value], b.value)
  }

  /** Some member of `ns` gives what `member` gives, if that is known at all. */
  predicate AlsoGiven(schema: Schema, fields: seq<Field>, member: Member, ns: seq<Member>)
  {
    Led(fields, member).Some? ==> exists l :: 0 <= l < |ns| && GiveAlike(schema, fields, member, ns[l])
  }

  predicate GivesNoMore(schema: Schema, fields: seq<Field>, ms: seq<Member>, ns: seq<Member>)
  {
    forall k {:trigger AlsoGiven(schema, fields, ms[k], ns)} :: 0 <= k < |ms| ==> AlsoGiven(schema, fields, ms[k], ns)
  }

  /** Objects that give the same values to the same fields, under whatever spelling, in whatever order
      and among whatever unknown members, read as the same message. */
  lemma SpellingAndOrderDoNotMatter(schema: Schema, d: string, ms: seq<Member>, ns: seq<Member>)
    requires d in schema && Unambiguous(schema[d], ms) && Unambiguous(schema[d], ns)
    requires GivesNoMore(schema, schema[d], ms, ns) && GivesNoMore(schema, schema[d], ns, ms)
    ensures ParseMessage(schema, d, JObj(ms)) == ParseMessage(schema, d, JObj(ns))
  {
    AlsoRead(schema, d, ms, ns);
    AlsoRead(schema, d, ns, ms);
    if ParseMessage(schema, d, JObj(ms)).Some? {
      SlotsReadAlike(schema, d, ms, ns);
    }
  }

  lemma SlotsReadAlike(schema: Schema, d: string, ms: seq<Member>, ns: seq<Member>)
    requires d in schema && Unambiguous(schema[d], ms) && Unambiguous(schema[d], ns)
    requires GivesNoMore(schema, schema[d], ms, ns) && GivesNoMore(schema, schema[d], ns, ms)
    requires ParseMessage(schema, d, JObj(ms)).Some? && ParseMessage(schema, d, JObj(ns)).Some?
    ensures ParseMessage(schema, d, JObj(ms)) == ParseMessage(schema, d, JObj(ns))
  {
    var m, n := ParseMessage(schema, d, JObj(ms)).value, ParseMessage(schema, d, JObj(ns)).value;
    forall i | 0 <= i < |schema[d]|
      ensures m.slots[i] == n.slots[i]
    {
      SlotReadAlike(schema, d, ms, ns, i);
    }
    assert m.slots == n.slots;
  }

  lemma OnlyOne(fields: seq<Field>, ms: seq<Member>, i: nat, k: nat)
    requires Unambiguous(fields, ms) && i < |fields| && k < |ms| && Touches(fields, ms[k], i)
    ensures forall l :: 0 <= l < |ms| && l != k ==> !Touches(fields, ms[l], i)
  {
  }

  lemma AlsoRead(schema: Schema, d: string, ms: seq<Member>, ns: seq<Member>)
    requires d in schema && GivesNoMore(schema, schema[d], ns, ms)
    ensures ParseMessage(schema, d, JObj(ms)).Some? ==> ParseMessage(schema, d, JObj(ns)).Some?
  {
    var fields := schema[d];
    MessageReadIff(schema, d, JObj(ms));
    MessageReadIff(schema, d, JObj(ns));
    if ParseMessage(schema, d, JObj(ms)).Some? {
      forall k | 0 <= k < |ns|
        ensures Readable(schema, fields, ns[k])
      {
        assert AlsoGiven(schema, fields, ns[k], ms);
        if Led(fields, ns[k]).Some? {
          var l :| 0 <= l < |ms| && GiveAlike(schema, fields, ns[k], ms[l]);
          assert Readable(schema, fields, ms[l]);
        }
      }
    }
  }

  lemma AlsoUntouched(schema: Schema, fields: seq<Field>, ms: seq<Member>, ns: seq<Member>, i: nat)
    requires GivesNoMore(schema, fields, ns, ms) && i < |fields|
    requires forall k :: 0 <= k < |ms| ==> !Touches(fields, ms[k], i)
    ensures forall l :: 0 <= l < |ns| ==> !Touches(fields, ns[l], i)
  {
    forall l | 0 <= l < |ns|
      ensures !Touches(fields, ns[l], i)
    {
      assert AlsoGiven(schema, fields, ns[l], ms);
      if Led(fields, ns[l]).Some? {
        var k :| 0 <= k < |ms| && GiveAlike(schema, fields, ns[l], ms[k]);
        assert !Touches(fields, ms[k], i);
      }
    }
  }

  lemma SlotReadAlike(schema: Schema, d: string, ms: seq<Member>, ns: seq<Member>, i: nat)
    requires d in schema && Unambiguous(schema[d], ms) && Unambiguous(schema[d], ns)
    requires GivesNoMore(schema, schema[d], ms, ns) && GivesNoMore(schema, schema[d], ns, ms)
    requires ParseMessage(schema, d, JObj(ms)).Some? && ParseMessage(schema, d, JObj(ns)).Some? && i < |schema[d]|
    ensures ParseMessage(schema, d, JObj(ms)).value.slots[i] == ParseMessage(schema, d, JObj(ns)).value.slots[i]
  {
    var fields := schema[d];
    if k :| 0 <= k < |ms| && Touches(fields, ms[k], i) {
      assert AlsoGiven(schema, fields, ms[k], ns);
      var l :| 0 <= l < |ns| && GiveAlike(schema, fields, ms[k], ns[l]);
      OnlyOne(fields, ms, i, k);
      OnlyOne(fields, ns, i, l);
      LastMemberWins(schema, d, JObj(ms), i, k);
      LastMemberWins(schema, d, JObj(ns), i, l);
    } else {
      AlsoUntouched(schema, fields, ms, ns, i);
      UntouchedIsFresh(schema, d, JObj(ms), i);
      UntouchedIsFresh(schema, d, JObj(ns), i);
    }
  }

  // ----- a field's own name

  function RespeltElement(schema: Schema, ty: FieldType, j: Json): Json
    decreases j, 4
  {
    if ty.MessageType? then Respelt(schema, ty.name, j) else j
  }

  function RespeltElements(schema: Schema, ty: FieldType, js: seq<Json>): (r: seq<Json>)
    ensures |r| == |js|
    decreases js
  {
    if js == [] then [] else [RespeltElement(schema, ty, js[0])] + RespeltElements(schema, ty, js[1..])
  }

  function RespeltField(schema: Schema, f: Field, j: Json): Json
    decreases j, 5
  {
    if !f.cardinality.Repeated? then RespeltElement(schema, f.ty, j)
    else if j.JArr? then JArr(RespeltElements(schema, f.ty, j.elements))
    else j
  }

  function RespeltMembers(schema: Schema, fields: seq<Field>, ms: seq<Member>): (r: seq<Member>)
    ensures |r| == |ms|
    decreases ms
  {
    if ms == [] then []
    else
      var i := Led(fields, ms[0]);
      [if i.None? then ms[0]
       else Member(fields[i.value].name, RespeltField(schema, fields[i.value], ms[0].value))]
      + RespeltMembers(schema, fields, ms[1..])
  }

  /** The object with every known key, at every depth, replaced by the field's own name. */
  function Respelt(schema: Schema, d: string, j: Json): Json
    decreases j, 3
  {
    if d in schema && j.JObj? then JObj(RespeltMembers(schema, schema[d], j.members)) else j
  }

  lemma RespeltElementReads(schema: Schema, ty: FieldType, j: Json)
    requires WellFormed(schema)
    ensures ParseElement(schema, ty, RespeltElement(schema, ty, j)) == ParseElement(schema, ty, j)
    decreases j, 4
  {
    if ty.MessageType? {
      OwnNamesReadAlike(schema, ty.name, j);
    }
  }

  lemma {:induction false} RespeltElementsRead(schema: Schema, ty: FieldType, js: seq<Json>)
    requires WellFormed(schema)
    ensures ParseElements(schema, ty, RespeltElements(schema, ty, js)) == ParseElements(schema, ty, js)
    decreases js
  {
    if js != [] {
      RespeltElementReads(schema, ty, js[0]);
      RespeltElementsRead(schema, ty, js[1..]);
      ParseOneMore(schema, ty, RespeltElement(schema, ty, js[0]), RespeltElements(schema, ty, js[1..]));
      ParseOneMore(schema, ty, js[0], js[1..]);
      assert [js[0]] + js[1..] == js;
    }
  }

  lemma RespeltFieldReads(schema: Schema, f: Field, j: Json)
    requires WellFormed(schema)
    ensures ParseField(schema, f, RespeltField(schema, f, j)) == ParseField(schema, f, j)
    decreases j, 5
  {
    if !f.cardinality.Repeated? {
      RespeltElementReads(schema, f.ty, j);
    } else if j.JArr? {
      RespeltElementsRead(schema, f.ty, j.elements);
    }
  }

  lemma OwnNameLeads(schema: Schema, d: string, i: nat)
    requires WellFormed(schema) && d in schema && i < |schema[d]|
    ensures FindField(Names(schema[d]), schema[d][i].name) == Some(i)
  {
    var names := Names(schema[d]);
    assert WellFormedFields(schema, schema[d]);
    assert forall k, l :: 0 <= k < l < |names| ==> Camel(names[k]) != Camel(names[l]);
    OwnNameFindsField(names, i);
  }

  lemma {:induction false} RespeltMembersRead(schema: Schema, d: string, slots: seq<Slot>, ms: seq<Member>)
    requires WellFormed(schema) && d in schema && |slots| == |schema[d]|
    ensures MergeAll(schema, schema[d], slots, RespeltMembers(schema, schema[d], ms))
         == MergeAll(schema, schema[d], slots, ms)
    decreases ms
  {
    if ms != [] {
      var fields := schema[d];
      var i := Led(fields, ms[0]);
      var respelt := RespeltMembers(schema, fields, ms);
      assert respelt[1..] == RespeltMembers(schema, fields, ms[1..]);
      if i.None? {
        RespeltMembersRead(schema, d, slots, ms[1..]);
      } else {
        OwnNameLeads(schema, d, i.value);
        RespeltFieldReads(schema, fields[i.value], ms[0].value);
        var v := ParseField(schema, fields[i.value], ms[0].value);
        if v.Some? {
          RespeltMembersRead(schema, d, SetSlot(fields, slots, i.value, v.value), ms[1..]);
        }
      }
    }
  }

  /** Any JSON reads the same when the fields go, at every depth, by their own names. */
  lemma OwnNamesReadAlike(schema: Schema, d: string, j: Json)
    requires WellFormed(schema)
    ensures ParseMessage(schema, d, Respelt(schema, d, j)) == ParseMessage(schema, d, j)
    decreases j, 3
  {
    if d in schema && j.JObj? {
      RespeltMembersRead(schema, d, InitSlots(schema[d]), j.members);
    }
  }

  /** What is printed, spelt with the fields' own names, is read back just as well. */
  lemma RoundTripByOwnNames(schema: Schema, m: Message)
    requires WellFormed(schema) && WellTyped(schema, m)
    ensures ParseMessage(schema, m.desc, Respelt(schema, m.desc, MessageToJson(schema, m)))
         == Some(Normal(schema, m))
  {
    OwnNamesReadAlike(schema, m.desc, MessageToJson(schema, m));
    RoundTrip(schema, m);
  }
}
