/**
 What a message is printed as: the JSON form of each scalar type, the fields that are printed at all,
 and the order of the keys.
 */
module PbPrinting {
  import opened Options
  import opened Naming
  import opened PbSchema
  import opened PbJson
  import Base64

  // ----- scalars

  lemma {:induction false} ByNumberIsFirst(e: EnumDescriptor, number: int, k: nat)
    requires k <= |e.values| && (k < |e.values| ==> e.values[k].number == number)
    requires forall i :: 0 <= i < k ==> e.values[i].number != number
    ensures ByNumber(e, number) == if k < |e.values| then Some(e.values[k]) else None
    decreases |e.values|
  {
    if k > 0 {
      ByNumberIsFirst(e.(values := e.values[1..]), number, k - 1);
    }
  }

  /** An enum prints as the name of the first value with its number, and as the number itself when
      there is none. */
  lemma EnumPrints(e: EnumDescriptor, number: int, k: nat)
    requires k <= |e.values| && (k < |e.values| ==> e.values[k].number == number)
    requires forall i :: 0 <= i < k ==> e.values[i].number != number
    ensures ScalarToJson(EnumType(e), Number(number))
         == if k < |e.values| then JStr(e.values[k].name) else JInt(number)
  {
    ByNumberIsFirst(e, number, k);
  }

  /** Each type has its own JSON form: integers stay integers, however large, and are not quoted. */
  lemma ScalarsPrint(schema: Schema, ty: FieldType, v: Value)
    requires TypedElement(schema, ty, v)
    ensures ty.BoolType? ==> ScalarToJson(ty, v) == JBool(v.i != 0)
    ensures ty.Int32Type? || ty.UInt32Type? || ty.Int64Type? || ty.UInt64Type? ==> ScalarToJson(ty, v) == JInt(v.i)
    ensures ty.FloatType? || ty.DoubleType? ==> ScalarToJson(ty, v) == JFloat(v.r)
    ensures ty.StringType? ==> ScalarToJson(ty, v) == JStr(if v.s.Some? then v.s.value else "")
    ensures ty.BytesType? ==> ScalarToJson(ty, v) == JStr(Base64.Encode(v.b))
  {
  }

  // ----- which fields are printed

  lemma SetIsNotDefault(schema: Schema, f: Field, v: Value)
    requires !f.cardinality.Repeated? && !TracksPresence(f) && TypedElement(schema, f.ty, v)
    requires FieldIsSet(f, Present(v))
    ensures NormalElement(schema, f.ty, v, false) != Default(f.ty)
  {
    match f.ty
    case FloatType => assert v.r != 0.0;
    case DoubleType => assert v.r != 0.0;
    case StringType => assert v.s.Some? && v.s.value != "";
    case BytesType => assert v.b != [];
    case MessageType(_) => assert v.m.Some?;
    case _ => assert v.i != 0;
  }

  /** A field is printed exactly when it differs, up to normalisation, from a fresh struct's. */
  lemma PrintedIff(schema: Schema, f: Field, slot: Slot)
    requires WellFormedField(schema, f) && TypedSlot(schema, f, slot)
    ensures FieldIsSet(f, slot) <==> NormalSlot(schema, f, slot) != InitSlot(f)
  {
    if !FieldIsSet(f, slot) {
      UnsetIsFresh(schema, f, slot);
    } else if f.cardinality.Repeated? {
      assert TypedField(schema, f, slot.v) && slot.v.vs != [];
      assert NormalElements(schema, f.ty, slot.v.vs) != [];
    } else if !TracksPresence(f) {
      SetIsNotDefault(schema, f, slot.v);
    }
  }

  /** A message without a descriptor prints as an empty object. */
  lemma UndescribedPrints(schema: Schema, m: Message)
    requires m.desc !in schema
    ensures MessageToJson(schema, m) == JObj([])
  {
  }

  // ----- key order

  /** The shorter string first, or else the lesser character at the first difference. */
  lemma {:induction false} StrLessIff(a: string, b: string, n: nat)
    requires n <= |a| && n <= |b| && a[..n] == b[..n]
    requires n == |a| || n == |b| || a[n] != b[n]
    ensures StrLess(a, b) <==> n < |b| && (n == |a| || a[n] < b[n])
  {
    if n > 0 {
      assert a[0] == a[..n][0] == b[..n][0] == b[0];
      assert a[1..][..n - 1] == a[..n][1..] == b[..n][1..] == b[1..][..n - 1];
      StrLessIff(a[1..], b[1..], n - 1);
    }
  }

  lemma {:induction false} StrLessOrder(a: string, b: string, c: string)
    ensures StrLess(a, b) && StrLess(b, c) ==> StrLess(a, c)
    ensures StrLess(a, b) || StrLess(b, a) || a == b
  {
    if a != "" && b != "" {
      StrLessOrder(a[1..], b[1..], if c == "" then c else c[1..]);
      assert a == [a[0]] + a[1..] && b == [b[0]] + b[1..];
    }
  }

  predicate Ascending(ms: seq<Member>)
  {
    forall j, k :: 0 <= j < k < |ms| ==> StrLess(ms[j].key, ms[k].key)
  }

  lemma {:induction false} PutAscends(ms: seq<Member>, key: string, value: Json)
    requires Ascending(ms)
    ensures Ascending(Put(ms, key, value))
    ensures forall m :: m in Put(ms, key, value) ==> m in ms || m.key == key
  {
    if ms != [] {
      var first, rest := ms[0], ms[1..];
      if StrLess(key, first.key) {
        forall k | 0 <= k < |ms|
          ensures StrLess(key, ms[k].key)
        {
          StrLessOrder(key, first.key, ms[k].key);
        }
      } else if first.key != key {
        StrLessOrder(key, first.key, key);
        PutAscends(rest, key, value);
        forall m | m in Put(rest, key, value)
          ensures StrLess(first.key, m.key)
        {
          if m in rest {
            var k :| 0 <= k < |rest| && rest[k] == m;
            assert ms[k + 1] == m;
          }
        }
      }
    }
  }

  /** Putting a member adds it, or takes the place of the one that has its key. */
  lemma {:induction false} PutReplaces(ms: seq<Member>, key: string, value: Json)
    requires Ascending(ms)
    ensures forall m :: m in Put(ms, key, value) <==> m == Member(key, value) || (m in ms && m.key != key)
  {
    if ms != [] {
      var first, rest := ms[0], ms[1..];
      assert ms == [first] + rest;
      KeysBehind(ms);
      if StrLess(key, first.key) {
        StrLessIrreflexive(key);
        forall m | m in rest
          ensures m.key != key
        {
          StrLessOrder(key, first.key, m.key);
        }
      } else if first.key != key {
        PutReplaces(rest, key, value);
      }
    }
  }

  lemma KeysBehind(ms: seq<Member>)
    requires Ascending(ms) && ms != []
    ensures Ascending(ms[1..]) && forall m :: m in ms[1..] ==> StrLess(ms[0].key, m.key) && m.key != ms[0].key
  {
    var rest := ms[1..];
    forall m | m in rest
      ensures StrLess(ms[0].key, m.key) && m.key != ms[0].key
    {
      var k :| 0 <= k < |rest| && rest[k] == m;
      assert ms[k + 1] == m;
      StrLessIrreflexive(ms[0].key);
    }
  }

  lemma {:induction false} StrLessIrreflexive(a: string)
    ensures !StrLess(a, a)
  {
    if a != "" {
      StrLessIrreflexive(a[1..]);
    }
  }

  /** The keys of a printed object ascend, so no key occurs twice. */
  lemma {:induction false} PrintedAscends(schema: Schema, fields: seq<Field>, m: Message, n: nat)
    requires n <= |fields|
    ensures Ascending(Printed(schema, fields, m, n))
  {
    if n > 0 {
      var before, f, slot := Printed(schema, fields, m, n - 1), fields[n - 1], SlotAt(m, n - 1);
      PrintedAscends(schema, fields, m, n - 1);
      if slot.Present? && FieldIsSet(f, slot) {
        PutAscends(before, Camel(f.name), FieldToJson(schema, f, slot.v));
      }
    }
  }
}
