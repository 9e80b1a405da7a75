/**
 Conversion between Lua tables and protobuf messages under a schema (src/protobuf/protobuf.cpp). The functions say what
 the two recursive procedures compute; the methods at the end are the procedures with their loops.
 */
module Protobuf {
  import opened Basics

  type TypeName = string

  /** Field types by the case that handles them; Unsupported stands for the default case (enum, bytes, group). */
  datatype Kind = BoolKind | Int32 | Int64 | UInt32 | UInt64 | StringKind | Message(name: TypeName) | Unsupported

  /** `unset`: for a scalar that knows whether it was set, the value it reads as while it was not. */
  datatype Field = Field(name: string, kind: Kind, repeated: bool, unset: Option<Slot>)

  type Schema = map<TypeName, seq<Field>>

  /** A Lua value; `arr` is the part of a table that luaL_len counts. Other is any value no field accepts. */
  datatype Value = Bool(b: bool) | Int(i: int) | Str(s: Bytes) | Table(fields: map<string, Value>, arr: seq<Value>)
    | Other

  /**
   One field of a message: a scalar, or Unset; a singular message that may be unset; the elements of a repeated
   field; or the encoded content of an unsupported field, empty while it is not set.
   */
  datatype Slot = BoolSlot(b: bool) | IntSlot(i: int) | StrSlot(s: Bytes) | Unset | One(msg: Option<Msg>)
    | Many(items: seq<Slot>) | Raw(content: Bytes)

  datatype Msg = Msg(slots: seq<Slot>)

  ghost predicate WellFormed(schema: Schema) {
    forall t :: t in schema ==>
      && (forall i, j :: 0 <= i < j < |schema[t]| ==> schema[t][i].name != schema[t][j].name)
      && (forall i :: 0 <= i < |schema[t]| ==> Declared(schema, schema[t][i]))
  }

  /** The type of a message field exists; only a singular scalar tracks being set, and reads as a value of its type. */
  ghost predicate Declared(schema: Schema, f: Field) {
    && (f.kind.Message? ==> f.kind.name in schema)
    && (f.unset.Some? ==> !f.repeated && !f.kind.Message? && !f.kind.Unsupported? && Typed(f.kind, f.unset.value))
  }

  /** A value of a scalar type. */
  ghost predicate Typed(k: Kind, s: Slot) {
    if k.BoolKind? then s.BoolSlot? else if k.StringKind? then s.StrSlot? else s.IntSlot? && InRange(k, s.i)
  }

  // ---------------------------------------------------------------- scalars

  const U64 := 0x1_0000_0000_0000_0000

  function Signed(i: int, modulus: int): int
    requires modulus > 0
  {
    var u := i % modulus;
    if 2 * u < modulus then u else u - modulus
  }

  /** A Lua integer stored in a field of kind `k`. */
  function Store(k: Kind, i: int): int {
    match k
    case Int32 => Signed(i, U32)
    case UInt32 => i % U32
    case UInt64 => i % U64
    case _ => Signed(i, U64)
  }

  /** A field's integer pushed as a lua_Integer. */
  function Push(i: int): int {
    Signed(i, U64)
  }

  predicate IsInt(k: Kind) {
    k.Int32? || k.Int64? || k.UInt32? || k.UInt64?
  }

  /** The values a field of kind `k` can hold. */
  predicate InRange(k: Kind, i: int) {
    match k
    case Int32 => -0x8000_0000 <= i < 0x8000_0000
    case UInt32 => 0 <= i < U32
    case UInt64 => 0 <= i < U64
    case _ => -0x8000_0000_0000_0000 <= i < 0x8000_0000_0000_0000
  }

  /** How many values that are. */
  function Width(k: Kind): int {
    if k.Int32? || k.UInt32? then U32 else U64
  }

  lemma Stored32(i: int, j: int)
    requires j == i % U32 || j == Signed(i, U32)
    ensures (j - i) % U32 == 0
  {
    var q, u := i / U32, i % U32;
    assert i == U32 * q + u;
    assert j - i == U32 * -q || j - i == U32 * (-q - 1);
  }

  lemma Stored64(i: int, j: int)
    requires j == i % U64 || j == Signed(i, U64)
    ensures (j - i) % U64 == 0
  {
    var q, u := i / U64, i % U64;
    assert i == U64 * q + u;
    assert j - i == U64 * -q || j - i == U64 * (-q - 1);
  }

  /** Any integer is stored as the one value in range that is congruent to it, so exactly those in range stay. */
  lemma StoreExactly(k: Kind, i: int)
    ensures InRange(k, Store(k, i)) && (Store(k, i) - i) % Width(k) == 0
    ensures Store(k, i) == i <==> InRange(k, i)
  {
    if Width(k) == U32 {
      Stored32(i, Store(k, i));
    } else {
      Stored64(i, Store(k, i));
    }
  }

  lemma OneInRange(k: Kind, i: int, j: int)
    requires InRange(k, i) && InRange(k, j) && (j - i) % Width(k) == 0
    ensures i == j
  {
  }

  /** What Lua gets is the integer itself, but for the upper half of the unsigned 64-bit range. */
  lemma PushExactly(k: Kind, i: int)
    requires InRange(k, i)
    ensures InRange(Int64, Push(i)) && (Push(i) - i) % U64 == 0
    ensures Push(i) == i <==> InRange(Int64, i)
  {
  }

  lemma StorePush(k: Kind, i: int)
    requires InRange(k, i)
    ensures Store(k, Push(i)) == i
  {
  }

  // ---------------------------------------------------------------- table to message

  function DefaultSlot(f: Field): Slot {
    if f.repeated then Many([])
    else if f.unset.Some? then Unset
    else match f.kind
      case BoolKind => BoolSlot(false)
      case StringKind => StrSlot([])
      case Message(_) => One(None)
      case Unsupported => Raw([])
      case _ => IntSlot(0)
  }

  /** A new message. */
  function Defaults(fs: seq<Field>): (ss: seq<Slot>)
    ensures |ss| == |fs| && forall i :: 0 <= i < |fs| ==> ss[i] == DefaultSlot(fs[i])
  {
    seq(|fs|, i requires 0 <= i < |fs| => DefaultSlot(fs[i]))
  }

  function DefaultMsg(schema: Schema, t: TypeName): Msg
    requires t in schema
  {
    Msg(Defaults(schema[t]))
  }

  /** foreachToMsg on a new message of type `t`; a value that is no table leaves it as it is. */
  function ToMsg(schema: Schema, t: TypeName, v: Value): Msg
    requires WellFormed(schema) && t in schema
    decreases v, 2, 0
  {
    if v.Table? then Msg(Slots(schema, t, v, |schema[t]|)) else DefaultMsg(schema, t)
  }

  /** The first `n` fields. */
  function Slots(schema: Schema, t: TypeName, v: Value, n: nat): (ss: seq<Slot>)
    requires WellFormed(schema) && t in schema && v.Table? && n <= |schema[t]|
    ensures |ss| == n
    decreases v, 1, n
  {
    if n == 0 then []
    else
      var f := schema[t][n - 1];
      Slots(schema, t, v, n - 1) + [if f.name in v.fields then Fill(schema, f, v.fields[f.name]) else Absent(schema, f)]
  }

  /** A singular message field is set even when the table has nothing for it. */
  function Absent(schema: Schema, f: Field): Slot
    requires Declared(schema, f)
  {
    if f.kind.Message? && !f.repeated then One(Some(DefaultMsg(schema, f.kind.name))) else DefaultSlot(f)
  }

  function Fill(schema: Schema, f: Field, v: Value): Slot
    requires WellFormed(schema) && Declared(schema, f)
    decreases v, 4, 0
  {
    if f.repeated then
      if v.Table? then Many(Elements(schema, f.kind, v, |v.arr|)) else Many([])
    else if f.kind.Message? then One(Some(ToMsg(schema, f.kind.name, v)))
    else if Accepts(f.kind, v) then Scalar(f.kind, v) else DefaultSlot(f)
  }

  predicate Accepts(k: Kind, v: Value) {
    (k.BoolKind? && v.Bool?) || (IsInt(k) && v.Int?) || (k.StringKind? && v.Str?) || (k.Message? && v.Table?)
  }

  function Scalar(k: Kind, v: Value): Slot
    requires Accepts(k, v) && !k.Message?
  {
    if v.Bool? then BoolSlot(v.b) else if v.Int? then IntSlot(Store(k, v.i)) else StrSlot(CutNul(v.s))
  }

  /** The first `n` elements of a repeated field; those of a wrong type are left out. */
  function Elements(schema: Schema, k: Kind, v: Value, n: nat): seq<Slot>
    requires WellFormed(schema) && (k.Message? ==> k.name in schema) && v.Table? && n <= |v.arr|
    decreases v, 3, n
  {
    if n == 0 then []
    else
      var w := v.arr[n - 1];
      Elements(schema, k, v, n - 1) +
      (if !Accepts(k, w) then []
       else if k.Message? then [One(Some(ToMsg(schema, k.name, w)))]
       else [Scalar(k, w)])
  }

  // ---------------------------------------------------------------- messages that fit the schema

  ghost predicate Conforms(schema: Schema, t: TypeName, m: Msg)
    requires t in schema
    decreases m, 1
  {
    |m.slots| == |schema[t]| && forall i :: 0 <= i < |m.slots| ==> Fits(schema, schema[t][i], m.slots[i])
  }

  ghost predicate Fits(schema: Schema, f: Field, s: Slot)
    decreases s, 1
  {
    if f.repeated then
      s.Many? && forall j :: 0 <= j < |s.items| ==> FitsOne(schema, f.kind, s.items[j]) && s.items[j] != One(None)
    else (s.Unset? && f.unset.Some?) || FitsOne(schema, f.kind, s)
  }

  ghost predicate FitsOne(schema: Schema, k: Kind, s: Slot)
    decreases s, 0
  {
    match k
    case Message(t) => s.One? && t in schema && (s.msg.Some? ==> Conforms(schema, t, s.msg.value))
    case Unsupported => s.Raw?
    case _ => Typed(k, s)
  }

  /** How deep the messages that are set go. */
  function Depth(m: Msg): nat
    decreases m, 1
  {
    SlotsDepth(m.slots)
  }

  function SlotsDepth(ss: seq<Slot>): nat
    decreases ss, 0
  {
    if ss == [] then 0
    else
      var a, b := SlotsDepth(ss[..|ss| - 1]), SlotDepth(ss[|ss| - 1]);
      if a > b then a else b
  }

  function SlotDepth(s: Slot): nat
    decreases s, 0
  {
    match s
    case One(Some(m)) => 1 + Depth(m)
    case Many(items) => SlotsDepth(items)
    case _ => 0
  }

  lemma {:induction false} DepthAt(ss: seq<Slot>, i: nat)
    requires i < |ss|
    ensures SlotDepth(ss[i]) <= SlotsDepth(ss)
    decreases |ss|
  {
    if i < |ss| - 1 {
      DepthAt(ss[..|ss| - 1], i);
    }
  }

  lemma DefaultFlat(schema: Schema, t: TypeName)
    requires WellFormed(schema) && t in schema
    ensures Depth(DefaultMsg(schema, t)) == 0 && Conforms(schema, t, DefaultMsg(schema, t))
  {
    FlatSlots(Defaults(schema[t]));
  }

  lemma {:induction false} FlatSlots(ss: seq<Slot>)
    requires forall i :: 0 <= i < |ss| ==> ss[i] == One(None) || ss[i] == Many([]) || !(ss[i].One? || ss[i].Many?)
    ensures SlotsDepth(ss) == 0
    decreases |ss|
  {
    if ss != [] {
      FlatSlots(ss[..|ss| - 1]);
      assert SlotDepth(ss[|ss| - 1]) == 0;
    }
  }

  /** No type contains itself through singular fields: ranks go down along them. */
  type Ranks = map<TypeName, nat>

  ghost predicate Ranked(schema: Schema, ranks: Ranks) {
    && schema.Keys <= ranks.Keys
    && forall t, i :: t in schema && 0 <= i < |schema[t]| && schema[t][i].kind.Message? && !schema[t][i].repeated ==>
         schema[t][i].kind.name in schema && ranks[schema[t][i].kind.name] < ranks[t]
  }

  // ---------------------------------------------------------------- message to table

  /**
   foreachToTable. Reading an unset singular message creates it, so the recursion goes below what is set; it ends
   because either the depth of what is set or, at depth nought, the rank of the type goes down.
   */
  function ToTable(schema: Schema, ranks: Ranks, t: TypeName, m: Msg): Value
    requires WellFormed(schema) && Ranked(schema, ranks) && t in schema && Conforms(schema, t, m)
    decreases Depth(m), ranks[t] + 1, 2, 0
  {
    Table(Entries(schema, ranks, t, m, |m.slots|), [])
  }

  function Entries(schema: Schema, ranks: Ranks, t: TypeName, m: Msg, n: nat): map<string, Value>
    requires WellFormed(schema) && Ranked(schema, ranks) && t in schema && Conforms(schema, t, m) && n <= |m.slots|
    decreases Depth(m), ranks[t] + 1, 1, n
  {
    if n == 0 then map[]
    else
      var entries := Entries(schema, ranks, t, m, n - 1);
      if Shown(schema[t][n - 1]) then entries[schema[t][n - 1].name := Entry(schema, ranks, t, m, n - 1)] else entries
  }

  /** A singular field of an unsupported type is skipped, a repeated one becomes an empty table. */
  predicate Shown(f: Field) {
    f.repeated || !f.kind.Unsupported?
  }

  function Entry(schema: Schema, ranks: Ranks, t: TypeName, m: Msg, i: nat): Value
    requires WellFormed(schema) && Ranked(schema, ranks) && t in schema && Conforms(schema, t, m)
    requires i < |m.slots| && Shown(schema[t][i])
    decreases Depth(m), ranks[t] + 1, 0, 0
  {
    var f, s := schema[t][i], m.slots[i];
    assert Fits(schema, f, s);
    DepthAt(m.slots, i);
    if f.repeated then Table(map[], Items(schema, ranks, f.kind, s.items))
    else if f.kind.Message? then
      DefaultFlat(schema, f.kind.name);
      ToTable(schema, ranks, f.kind.name, if s.msg.Some? then s.msg.value else DefaultMsg(schema, f.kind.name))
    else Shape(Read(f, s))
  }

  /** The value of a scalar field, set or not. */
  function Read(f: Field, s: Slot): Slot {
    if s.Unset? && f.unset.Some? then f.unset.value else s
  }

  function Shape(s: Slot): Value
    requires s.BoolSlot? || s.IntSlot? || s.StrSlot?
  {
    match s
    case BoolSlot(b) => Bool(b)
    case IntSlot(i) => Int(Push(i))
    case StrSlot(s) => Str(CutNul(s))
  }

  function Items(schema: Schema, ranks: Ranks, k: Kind, items: seq<Slot>): seq<Value>
    requires WellFormed(schema) && Ranked(schema, ranks)
    requires forall j :: 0 <= j < |items| ==> FitsOne(schema, k, items[j]) && items[j] != One(None)
    decreases SlotsDepth(items), 0, 0, |items|
  {
    if items == [] then []
    else
      var s := items[|items| - 1];
      assert FitsOne(schema, k, s) && SlotDepth(s) <= SlotsDepth(items);
      Items(schema, ranks, k, items[..|items| - 1]) +
      (if k.Message? then [ToTable(schema, ranks, k.name, s.msg.value)] else if k.Unsupported? then [] else [Shape(s)])
  }

  // ---------------------------------------------------------------- a message rebuilt from its own table

  /**
   The message with every unset singular message and scalar set, every string cut at its first NUL, and nothing in
   fields of unsupported types.
   */
  function Rebuilt(schema: Schema, ranks: Ranks, t: TypeName, m: Msg): Msg
    requires WellFormed(schema) && Ranked(schema, ranks) && t in schema && Conforms(schema, t, m)
    decreases Depth(m), ranks[t] + 1, 2, 0
  {
    Msg(RebuiltSlots(schema, ranks, t, m, |m.slots|))
  }

  function RebuiltSlots(schema: Schema, ranks: Ranks, t: TypeName, m: Msg, n: nat): (ss: seq<Slot>)
    requires WellFormed(schema) && Ranked(schema, ranks) && t in schema && Conforms(schema, t, m) && n <= |m.slots|
    ensures |ss| == n
    decreases Depth(m), ranks[t] + 1, 1, n
  {
    if n == 0 then []
    else RebuiltSlots(schema, ranks, t, m, n - 1) + [RebuiltSlot(schema, ranks, t, m, n - 1)]
  }

  function RebuiltSlot(schema: Schema, ranks: Ranks, t: TypeName, m: Msg, i: nat): Slot
    requires WellFormed(schema) && Ranked(schema, ranks) && t in schema && Conforms(schema, t, m) && i < |m.slots|
    decreases Depth(m), ranks[t] + 1, 0, 0
  {
    var f, s := schema[t][i], m.slots[i];
    assert Fits(schema, f, s);
    DepthAt(m.slots, i);
    if f.repeated then Many(RebuiltItems(schema, ranks, f.kind, s.items))
    else if f.kind.Message? then
      DefaultFlat(schema, f.kind.name);
      One(Some(Rebuilt(schema, ranks, f.kind.name,
                       if s.msg.Some? then s.msg.value else DefaultMsg(schema, f.kind.name))))
    else Cut(Read(f, s))
  }

  function Cut(s: Slot): Slot {
    if s.StrSlot? then StrSlot(CutNul(s.s)) else if s.Raw? then Raw([]) else s
  }

  function RebuiltItems(schema: Schema, ranks: Ranks, k: Kind, items: seq<Slot>): seq<Slot>
    requires WellFormed(schema) && Ranked(schema, ranks)
    requires forall j :: 0 <= j < |items| ==> FitsOne(schema, k, items[j]) && items[j] != One(None)
    decreases SlotsDepth(items), 0, 0, |items|
  {
    if items == [] then []
    else
      var s := items[|items| - 1];
      assert FitsOne(schema, k, s) && SlotDepth(s) <= SlotsDepth(items);
      RebuiltItems(schema, ranks, k, items[..|items| - 1]) +
      (if k.Message? then [One(Some(Rebuilt(schema, ranks, k.name, s.msg.value)))]
       else if k.Unsupported? then []
       else [Cut(s)])
  }

  // ---------------------------------------------------------------- lookups

  lemma {:induction false} SlotsAt(schema: Schema, t: TypeName, v: Value, n: nat, i: nat)
    requires WellFormed(schema) && t in schema && v.Table? && i < n <= |schema[t]|
    ensures var f := schema[t][i];
            Slots(schema, t, v, n)[i] ==
              if f.name in v.fields then Fill(schema, f, v.fields[f.name]) else Absent(schema, f)
    decreases n
  {
    if i < n - 1 {
      SlotsAt(schema, t, v, n - 1, i);
    }
  }

  lemma {:induction false} RebuiltAt(schema: Schema, ranks: Ranks, t: TypeName, m: Msg, n: nat, i: nat)
    requires WellFormed(schema) && Ranked(schema, ranks) && t in schema && Conforms(schema, t, m) && i < n <= |m.slots|
    ensures RebuiltSlots(schema, ranks, t, m, n)[i] == RebuiltSlot(schema, ranks, t, m, i)
    decreases n
  {
    hide RebuiltSlot, Conforms, Ranked, WellFormed;
    if i < n - 1 {
      RebuiltAt(schema, ranks, t, m, n - 1, i);
    }
  }

  lemma {:induction false} EntriesAt(schema: Schema, ranks: Ranks, t: TypeName, m: Msg, n: nat, i: nat)
    requires WellFormed(schema) && Ranked(schema, ranks) && t in schema && Conforms(schema, t, m)
    requires i < |m.slots| && n <= |m.slots|
    ensures var f, entries := schema[t][i], Entries(schema, ranks, t, m, n);
            && (f.name in entries <==> i < n && Shown(f))
            && (i < n && Shown(f) ==> entries[f.name] == Entry(schema, ranks, t, m, i))
    decreases n
  {
    hide Entry, Ranked;
    if n > 0 {
      EntriesAt(schema, ranks, t, m, n - 1, i);
      assert i != n - 1 ==> schema[t][i].name != schema[t][n - 1].name;
    }
  }

  // ---------------------------------------------------------------- messages from tables fit

  lemma {:induction false} ToMsgConforms(schema: Schema, t: TypeName, v: Value)
    requires WellFormed(schema) && t in schema
    ensures Conforms(schema, t, ToMsg(schema, t, v))
    decreases v, 2, 0
  {
    if v.Table? {
      var m := ToMsg(schema, t, v);
      forall i | 0 <= i < |m.slots| ensures Fits(schema, schema[t][i], m.slots[i]) {
        var f := schema[t][i];
        SlotsAt(schema, t, v, |schema[t]|, i);
        if f.name in v.fields {
          FillFits(schema, f, v.fields[f.name]);
        } else {
          AbsentFits(schema, f);
        }
      }
    } else {
      DefaultFlat(schema, t);
    }
  }

  lemma AbsentFits(schema: Schema, f: Field)
    requires WellFormed(schema) && Declared(schema, f)
    ensures Fits(schema, f, Absent(schema, f)) && Fits(schema, f, DefaultSlot(f))
  {
    if f.kind.Message? {
      DefaultFlat(schema, f.kind.name);
    }
  }

  lemma {:induction false} FillFits(schema: Schema, f: Field, v: Value)
    requires WellFormed(schema) && Declared(schema, f)
    ensures Fits(schema, f, Fill(schema, f, v))
    decreases v, 4, 0
  {
    if f.repeated {
      if v.Table? {
        ElementsFit(schema, f.kind, v, |v.arr|);
      }
    } else if f.kind.Message? {
      ToMsgConforms(schema, f.kind.name, v);
    } else if Accepts(f.kind, v) {
      ScalarFits(schema, f.kind, v);
    } else {
      AbsentFits(schema, f);
    }
  }

  lemma ScalarFits(schema: Schema, k: Kind, v: Value)
    requires Accepts(k, v) && !k.Message?
    ensures FitsOne(schema, k, Scalar(k, v)) && Scalar(k, v) != One(None)
  {
    if v.Int? {
      StoreExactly(k, v.i);
    }
  }

  lemma {:induction false} ElementsFit(schema: Schema, k: Kind, v: Value, n: nat)
    requires WellFormed(schema) && (k.Message? ==> k.name in schema) && v.Table? && n <= |v.arr|
    ensures forall j :: 0 <= j < |Elements(schema, k, v, n)| ==>
              FitsOne(schema, k, Elements(schema, k, v, n)[j]) && Elements(schema, k, v, n)[j] != One(None)
    decreases v, 3, n
  {
    if n > 0 {
      var w := v.arr[n - 1];
      ElementsFit(schema, k, v, n - 1);
      if Accepts(k, w) {
        if k.Message? {
          ToMsgConforms(schema, k.name, w);
        } else {
          ScalarFits(schema, k, w);
        }
      }
    }
  }

  // ---------------------------------------------------------------- table after message

  lemma FitAt(schema: Schema, k: Kind, r: seq<Slot>, j: nat)
    requires j < |r| && forall i :: 0 <= i < |r| ==> FitsOne(schema, k, r[i]) && r[i] != One(None)
    ensures FitsOne(schema, k, r[j]) && r[j] != One(None)
    ensures k.Message? ==> r[j].One? && r[j].msg.Some? && k.name in schema && Conforms(schema, k.name, r[j].msg.value)
    ensures !k.Message? && !k.Unsupported? ==> r[j].BoolSlot? || r[j].IntSlot? || r[j].StrSlot?
    ensures SlotDepth(r[j]) <= SlotsDepth(r)
  {
    assert FitsOne(schema, k, r[j]);
    hide FitsOne, Conforms;
    DepthAt(r, j);
  }

  lemma {:induction false} ElementsAt(schema: Schema, k: Kind, v: Value, n: nat)
    requires WellFormed(schema) && (k.Message? ==> k.name in schema) && v.Table? && n <= |v.arr|
    requires forall j :: 0 <= j < n ==> Accepts(k, v.arr[j])
    ensures |Elements(schema, k, v, n)| == n
    ensures forall j :: 0 <= j < n ==>
              Elements(schema, k, v, n)[j] ==
                if k.Message? then One(Some(ToMsg(schema, k.name, v.arr[j]))) else Scalar(k, v.arr[j])
    decreases n
  {
    hide WellFormed, ToMsg, Scalar;
    if n > 0 {
      ElementsAt(schema, k, v, n - 1);
    }
  }

  /** The elements read back from the table of a repeated field. */
  lemma {:induction false} ItemsBack(schema: Schema, ranks: Ranks, k: Kind, items: seq<Slot>)
    requires WellFormed(schema) && Ranked(schema, ranks) && (k.Message? ==> k.name in schema)
    requires forall j :: 0 <= j < |items| ==> FitsOne(schema, k, items[j]) && items[j] != One(None)
    ensures var arr := Items(schema, ranks, k, items);
            Elements(schema, k, Table(map[], arr), |arr|) == RebuiltItems(schema, ranks, k, items)
    decreases SlotsDepth(items), 0, 0, |items|
  {
    hide WellFormed, Ranked, FitsOne, Conforms, ToMsg, ToTable, Rebuilt, Shape, Scalar, Cut, Items, RebuiltItems;
    var v := Table(map[], Items(schema, ranks, k, items));
    ItemsAt(schema, ranks, k, items);
    RebuiltItemsAt(schema, ranks, k, items);
    if !k.Unsupported? {
      forall j | 0 <= j < |items|
        ensures Accepts(k, v.arr[j])
        ensures RebuiltItems(schema, ranks, k, items)[j] ==
                  if k.Message? then One(Some(ToMsg(schema, k.name, v.arr[j]))) else Scalar(k, v.arr[j])
      {
        FitAt(schema, k, items, j);
        if k.Message? {
          BackAgain(schema, ranks, k.name, items[j].msg.value);
          TableIsTable(schema, ranks, k.name, items[j].msg.value);
        } else {
          ShapeBack(schema, k, items[j]);
        }
      }
      hide Accepts, Elements;
      ElementsAt(schema, k, v, |v.arr|);
    } else {
      ElementsAt(schema, k, v, 0);
    }
  }

  lemma TableIsTable(schema: Schema, ranks: Ranks, t: TypeName, m: Msg)
    requires WellFormed(schema) && Ranked(schema, ranks) && t in schema && Conforms(schema, t, m)
    ensures ToTable(schema, ranks, t, m).Table?
  {
  }

  lemma ShapeBack(schema: Schema, k: Kind, s: Slot)
    requires FitsOne(schema, k, s) && !k.Message? && !k.Unsupported?
    ensures Accepts(k, Shape(s)) && Scalar(k, Shape(s)) == Cut(s)
  {
    if s.IntSlot? {
      StorePush(k, s.i);
    } else if s.StrSlot? {
      CutTwice(s.s);
    }
  }

  lemma {:induction false} SlotBack(schema: Schema, ranks: Ranks, t: TypeName, m: Msg, i: nat)
    requires WellFormed(schema) && Ranked(schema, ranks) && t in schema && Conforms(schema, t, m) && i < |m.slots|
    ensures var f := schema[t][i];
            RebuiltSlot(schema, ranks, t, m, i) ==
              if Shown(f) then Fill(schema, f, Entry(schema, ranks, t, m, i)) else Absent(schema, f)
    decreases Depth(m), ranks[t] + 1, 0, 0
  {
    var f, s := schema[t][i], m.slots[i];
    assert Fits(schema, f, s);
    DepthAt(m.slots, i);
    if f.repeated {
      ItemsBack(schema, ranks, f.kind, s.items);
    } else if f.kind.Message? {
      DefaultFlat(schema, f.kind.name);
      BackAgain(schema, ranks, f.kind.name, if s.msg.Some? then s.msg.value else DefaultMsg(schema, f.kind.name));
    } else if !f.kind.Unsupported? {
      assert FitsOne(schema, f.kind, Read(f, s));
      ShapeBack(schema, f.kind, Read(f, s));
    }
  }

  /** A message rebuilt from its own table is that message with everything unset set as it reads. */
  lemma {:induction false} BackAgain(schema: Schema, ranks: Ranks, t: TypeName, m: Msg)
    requires WellFormed(schema) && Ranked(schema, ranks) && t in schema && Conforms(schema, t, m)
    ensures ToMsg(schema, t, ToTable(schema, ranks, t, m)) == Rebuilt(schema, ranks, t, m)
    decreases Depth(m), ranks[t] + 1, 2, 0
  {
    var v, n := ToTable(schema, ranks, t, m), |m.slots|;
    var back, rebuilt := Slots(schema, t, v, n), RebuiltSlots(schema, ranks, t, m, n);
    forall i | 0 <= i < n ensures back[i] == rebuilt[i] {
      SlotsAt(schema, t, v, n, i);
      EntriesAt(schema, ranks, t, m, n, i);
      RebuiltAt(schema, ranks, t, m, n, i);
      SlotBack(schema, ranks, t, m, i);
    }
  }

  // ---------------------------------------------------------------- nothing more to fill in

  lemma RebuiltConforms(schema: Schema, ranks: Ranks, t: TypeName, m: Msg)
    requires WellFormed(schema) && Ranked(schema, ranks) && t in schema && Conforms(schema, t, m)
    ensures Conforms(schema, t, Rebuilt(schema, ranks, t, m))
  {
    BackAgain(schema, ranks, t, m);
    ToMsgConforms(schema, t, ToTable(schema, ranks, t, m));
  }

  /** The rebuilt message has the same table. */
  lemma {:induction false} SameTable(schema: Schema, ranks: Ranks, t: TypeName, m: Msg)
    requires WellFormed(schema) && Ranked(schema, ranks) && t in schema && Conforms(schema, t, m)
    ensures Conforms(schema, t, Rebuilt(schema, ranks, t, m))
    ensures ToTable(schema, ranks, t, Rebuilt(schema, ranks, t, m)) == ToTable(schema, ranks, t, m)
    decreases Depth(m), ranks[t] + 1, 2, 0
  {
    RebuiltConforms(schema, ranks, t, m);
    SameEntries(schema, ranks, t, m, |m.slots|);
  }

  lemma {:induction false} SameEntries(schema: Schema, ranks: Ranks, t: TypeName, m: Msg, n: nat)
    requires WellFormed(schema) && Ranked(schema, ranks) && t in schema && Conforms(schema, t, m) && n <= |m.slots|
    requires Conforms(schema, t, Rebuilt(schema, ranks, t, m))
    ensures Entries(schema, ranks, t, Rebuilt(schema, ranks, t, m), n) == Entries(schema, ranks, t, m, n)
    decreases Depth(m), ranks[t] + 1, 1, n
  {
    if n > 0 {
      SameEntries(schema, ranks, t, m, n - 1);
      if Shown(schema[t][n - 1]) {
        SameEntry(schema, ranks, t, m, n - 1);
      }
    }
  }

  lemma {:induction false} SameEntry(schema: Schema, ranks: Ranks, t: TypeName, m: Msg, i: nat)
    requires WellFormed(schema) && Ranked(schema, ranks) && t in schema && Conforms(schema, t, m)
    requires i < |m.slots| && Shown(schema[t][i]) && Conforms(schema, t, Rebuilt(schema, ranks, t, m))
    ensures Entry(schema, ranks, t, Rebuilt(schema, ranks, t, m), i) == Entry(schema, ranks, t, m, i)
    decreases Depth(m), ranks[t] + 1, 0, 0
  {
    var f, s := schema[t][i], m.slots[i];
    var s' := Rebuilt(schema, ranks, t, m).slots[i];
    RebuiltAt(schema, ranks, t, m, |m.slots|, i);
    assert Fits(schema, f, s) && Fits(schema, f, s');
    DepthAt(m.slots, i);
    if f.repeated {
      SameItems(schema, ranks, f.kind, s.items, s'.items);
    } else if f.kind.Message? {
      DefaultFlat(schema, f.kind.name);
      SameTable(schema, ranks, f.kind.name, if s.msg.Some? then s.msg.value else DefaultMsg(schema, f.kind.name));
    } else if Read(f, s).StrSlot? {
      CutTwice(Read(f, s).s);
    }
  }

  lemma {:induction false} RebuiltItemsAt(schema: Schema, ranks: Ranks, k: Kind, items: seq<Slot>)
    requires WellFormed(schema) && Ranked(schema, ranks)
    requires forall j :: 0 <= j < |items| ==> FitsOne(schema, k, items[j]) && items[j] != One(None)
    ensures var r := RebuiltItems(schema, ranks, k, items);
            if k.Unsupported? then r == []
            else |r| == |items| && forall j :: 0 <= j < |items| ==>
              r[j] ==
                if k.Message? then One(Some(Rebuilt(schema, ranks, k.name, items[j].msg.value))) else Cut(items[j])
    decreases |items|
  {
    hide Rebuilt, WellFormed, Ranked;
    if items != [] {
      var init, s := items[..|items| - 1], items[|items| - 1];
      assert FitsOne(schema, k, s);
      RebuiltItemsAt(schema, ranks, k, init);
      assert forall j :: 0 <= j < |init| ==> init[j] == items[j];
    }
  }

  lemma {:induction false} ItemsAt(schema: Schema, ranks: Ranks, k: Kind, items: seq<Slot>)
    requires WellFormed(schema) && Ranked(schema, ranks)
    requires forall j :: 0 <= j < |items| ==> FitsOne(schema, k, items[j]) && items[j] != One(None)
    ensures var arr := Items(schema, ranks, k, items);
            if k.Unsupported? then arr == []
            else |arr| == |items| && forall j :: 0 <= j < |items| ==>
              arr[j] == if k.Message? then ToTable(schema, ranks, k.name, items[j].msg.value) else Shape(items[j])
    decreases |items|
  {
    hide ToTable, WellFormed, Ranked, Shape;
    if items != [] {
      var init, s := items[..|items| - 1], items[|items| - 1];
      assert FitsOne(schema, k, s);
      ItemsAt(schema, ranks, k, init);
      assert forall j :: 0 <= j < |init| ==> init[j] == items[j];
    }
  }

  lemma {:induction false} SameItems(schema: Schema, ranks: Ranks, k: Kind, items: seq<Slot>, r: seq<Slot>)
    requires WellFormed(schema) && Ranked(schema, ranks)
    requires forall j :: 0 <= j < |items| ==> FitsOne(schema, k, items[j]) && items[j] != One(None)
    requires forall j :: 0 <= j < |r| ==> FitsOne(schema, k, r[j]) && r[j] != One(None)
    requires r == RebuiltItems(schema, ranks, k, items)
    ensures Items(schema, ranks, k, r) == Items(schema, ranks, k, items)
    decreases SlotsDepth(items), 0, 0, |items|
  {
    hide WellFormed, Ranked, FitsOne, Conforms, ToTable, Rebuilt, Items, RebuiltItems, Cut, Shape;
    var a, b := Items(schema, ranks, k, items), Items(schema, ranks, k, r);
    RebuiltItemsAt(schema, ranks, k, items);
    ItemsAt(schema, ranks, k, items);
    ItemsAt(schema, ranks, k, r);
    if !k.Unsupported? {
      forall j | 0 <= j < |items| ensures a[j] == b[j] {
        FitAt(schema, k, items, j);
        FitAt(schema, k, r, j);
        if k.Message? {
          SameTable(schema, ranks, k.name, items[j].msg.value);
        } else {
          SameShape(items[j]);
        }
      }
    }
  }

  lemma SameShape(s: Slot)
    requires s.BoolSlot? || s.IntSlot? || s.StrSlot?
    ensures var c := Cut(s);
            (c.BoolSlot? || c.IntSlot? || c.StrSlot?) && Shape(c) == Shape(s)
  {
    if s.StrSlot? {
      CutTwice(s.s);
    }
  }

  /** The table that decoding an encoded table gives. */
  function Normal(schema: Schema, ranks: Ranks, t: TypeName, v: Value): Value
    requires WellFormed(schema) && Ranked(schema, ranks) && t in schema
  {
    ToMsgConforms(schema, t, v);
    ToTable(schema, ranks, t, ToMsg(schema, t, v))
  }

  /**
   Table to message to table is a normal form, for every Lua value: defaults filled in, what the schema does not take
   dropped, integers wrapped, nested and repeated messages normalised. Doing it again changes nothing.
   */
  lemma NormalForm(schema: Schema, ranks: Ranks, t: TypeName, v: Value)
    requires WellFormed(schema) && Ranked(schema, ranks) && t in schema
    ensures Normal(schema, ranks, t, Normal(schema, ranks, t, v)) == Normal(schema, ranks, t, v)
  {
    var m := ToMsg(schema, t, v);
    ToMsgConforms(schema, t, v);
    BackAgain(schema, ranks, t, m);
    SameTable(schema, ranks, t, m);
  }

  // ---------------------------------------------------------------- what becomes of the values of a table

  /** The bytes before the first NUL. */
  ghost predicate IsCut(s: Bytes, of: Bytes) {
    s <= of && 0 !in s && (|s| < |of| ==> of[|s|] == 0)
  }

  lemma {:induction false} CutIs(s: Bytes)
    ensures IsCut(CutNul(s), s)
    decreases |s|
  {
    if s != [] && s[0] != 0 {
      CutIs(s[1..]);
    }
  }

  /**
   A singular scalar field holds the table's value, integers modulo the width of the field and strings up to their
   first NUL; without a value of its type it is unset or zero.
   */
  lemma FieldMeans(schema: Schema, t: TypeName, v: Value, i: nat)
    requires WellFormed(schema) && t in schema && v.Table? && i < |schema[t]|
    requires !schema[t][i].repeated && !schema[t][i].kind.Message? && !schema[t][i].kind.Unsupported?
    ensures i < |ToMsg(schema, t, v).slots|
    ensures var f, s := schema[t][i], ToMsg(schema, t, v).slots[i];
            if f.name in v.fields && Accepts(f.kind, v.fields[f.name]) then
              match v.fields[f.name]
              case Bool(b) => s == BoolSlot(b)
              case Int(n) => s.IntSlot? && InRange(f.kind, s.i) && (s.i - n) % Width(f.kind) == 0
              case Str(text) => s.StrSlot? && IsCut(s.s, text)
              case _ => false
            else if f.unset.Some? then s == Unset
            else if f.kind.BoolKind? then s == BoolSlot(false)
            else if f.kind.StringKind? then s == StrSlot([])
            else s == IntSlot(0)
  {
    var f := schema[t][i];
    SlotsAt(schema, t, v, |schema[t]|, i);
    if f.name in v.fields && Accepts(f.kind, v.fields[f.name]) {
      var w := v.fields[f.name];
      if w.Int? {
        StoreExactly(f.kind, w.i);
      } else if w.Str? {
        CutIs(w.s);
      }
    }
  }

  /** A singular message field is always set: to the message of the table's value, or to a new one without a value. */
  lemma MessageFieldMeans(schema: Schema, t: TypeName, v: Value, i: nat)
    requires WellFormed(schema) && t in schema && v.Table? && i < |schema[t]|
    requires !schema[t][i].repeated && schema[t][i].kind.Message?
    ensures i < |ToMsg(schema, t, v).slots|
    ensures var f := schema[t][i];
            f.kind.name in schema && ToMsg(schema, t, v).slots[i] ==
              One(Some(if f.name in v.fields then ToMsg(schema, f.kind.name, v.fields[f.name])
                       else DefaultMsg(schema, f.kind.name)))
  {
    hide ToMsg, DefaultMsg;
    TableMsg(schema, t, v);
    SlotsAt(schema, t, v, |schema[t]|, i);
  }

  /** The elements of a right type, in order. */
  function Accepted(k: Kind, arr: seq<Value>): seq<Value> {
    if arr == [] then []
    else Accepted(k, arr[..|arr| - 1]) + if Accepts(k, arr[|arr| - 1]) then [arr[|arr| - 1]] else []
  }

  /** A slot made of one element. */
  ghost predicate ElementMeans(schema: Schema, k: Kind, w: Value, s: Slot)
    requires WellFormed(schema)
  {
    match w
    case Bool(b) => s == BoolSlot(b)
    case Int(n) => s.IntSlot? && InRange(k, s.i) && (s.i - n) % Width(k) == 0
    case Str(text) => s.StrSlot? && IsCut(s.s, text)
    case Table(_, _) => k.Message? && k.name in schema && s == One(Some(ToMsg(schema, k.name, w)))
    case Other => false
  }

  /** A repeated field holds the elements of the right type, each by its value, in their order. */
  lemma {:induction false} ElementsMean(schema: Schema, k: Kind, v: Value, n: nat)
    requires WellFormed(schema) && (k.Message? ==> k.name in schema) && v.Table? && n <= |v.arr|
    ensures |Elements(schema, k, v, n)| == |Accepted(k, v.arr[..n])|
    ensures forall j :: 0 <= j < |Elements(schema, k, v, n)| ==>
              ElementMeans(schema, k, Accepted(k, v.arr[..n])[j], Elements(schema, k, v, n)[j])
    decreases n
  {
    hide WellFormed, ToMsg, Scalar, ElementMeans;
    if n > 0 {
      var w := v.arr[n - 1];
      ElementsMean(schema, k, v, n - 1);
      assert v.arr[..n][..n - 1] == v.arr[..n - 1] && v.arr[..n][n - 1] == w;
      if Accepts(k, w) {
        OneMeans(schema, k, w);
      }
    }
  }

  lemma OneMeans(schema: Schema, k: Kind, w: Value)
    requires WellFormed(schema) && (k.Message? ==> k.name in schema) && Accepts(k, w)
    ensures ElementMeans(schema, k, w, if k.Message? then One(Some(ToMsg(schema, k.name, w))) else Scalar(k, w))
  {
    hide ToMsg, WellFormed;
    if w.Int? {
      StoreExactly(k, w.i);
    } else if w.Str? {
      CutIs(w.s);
    }
  }

  // ---------------------------------------------------------------- tables that survive unchanged

  /** A table with exactly the fields of the schema, each with a value of its type that the field can hold. */
  ghost predicate Whole(schema: Schema, t: TypeName, v: Value)
    decreases v, 1
  {
    && v.Table? && v.arr == [] && t in schema
    && (forall name :: name in v.fields ==>
          exists i :: 0 <= i < |schema[t]| && Shown(schema[t][i]) && schema[t][i].name == name)
    && forall i :: 0 <= i < |schema[t]| && Shown(schema[t][i]) ==>
         schema[t][i].name in v.fields && WholeField(schema, schema[t][i], v.fields[schema[t][i].name])
  }

  ghost predicate WholeField(schema: Schema, f: Field, w: Value)
    decreases w, 3
  {
    if f.repeated then
      w.Table? && w.fields == map[] && forall j :: 0 <= j < |w.arr| ==> WholeOne(schema, f.kind, w.arr[j])
    else WholeOne(schema, f.kind, w)
  }

  ghost predicate WholeOne(schema: Schema, k: Kind, w: Value)
    decreases w, 2
  {
    match k
    case BoolKind => w.Bool?
    case StringKind => w.Str? && 0 !in w.s
    case Message(name) => Whole(schema, name, w)
    case Unsupported => false
    case UInt64 => w.Int? && InRange(Int64, w.i)
    case _ => w.Int? && InRange(k, w.i)
  }

  lemma IntExactly(k: Kind, i: int)
    requires IsInt(k)
    ensures Push(Store(k, i)) == i <==> (k.UInt64? || InRange(k, i)) && InRange(Int64, i)
  {
    match k
    case Int32 =>
    case UInt32 =>
    case UInt64 =>
    case Int64 =>
  }

  lemma ShapeExactly(k: Kind, w: Value)
    requires Accepts(k, w) && !k.Message?
    ensures var s := Scalar(k, w);
            && (s.BoolSlot? || s.IntSlot? || s.StrSlot?)
            && (Shape(s) == w <==> match w
                                   case Int(i) => (k.UInt64? || InRange(k, i)) && InRange(Int64, i)
                                   case Str(text) => 0 !in text
                                   case _ => true)
  {
    match w
    case Int(i) => IntExactly(k, i);
    case Str(text) =>
      CutTwice(text);
      CutNothing(text);
    case _ =>
  }

  /** What comes back of the first `n` elements. */
  function Returned(schema: Schema, ranks: Ranks, k: Kind, v: Value, n: nat): seq<Value>
    requires WellFormed(schema) && Ranked(schema, ranks) && (k.Message? ==> k.name in schema)
    requires v.Table? && n <= |v.arr|
  {
    ElementsFit(schema, k, v, n);
    Items(schema, ranks, k, Elements(schema, k, v, n))
  }

  ghost predicate AllWhole(schema: Schema, k: Kind, arr: seq<Value>, n: nat)
    requires n <= |arr|
  {
    forall j :: 0 <= j < n ==> WholeOne(schema, k, arr[j])
  }

  lemma OneMore(before: seq<Value>, after: seq<Value>, arr: seq<Value>, n: nat)
    requires 0 < n <= |arr| && |before| < n
    requires after == before || (|after| == |before| + 1 && after[..|before|] == before)
    ensures |after| <= n
    ensures after == arr[..n] <==>
            before == arr[..n - 1] && |after| == |before| + 1 && after[|before|] == arr[n - 1]
  {
    assert arr[..n] == arr[..n - 1] + [arr[n - 1]];
    if |after| == |before| + 1 {
      assert after == before + [after[|before|]];
    }
  }

  lemma AllWholeNext(schema: Schema, k: Kind, arr: seq<Value>, n: nat)
    requires 0 < n <= |arr|
    ensures AllWhole(schema, k, arr, n) <==> AllWhole(schema, k, arr, n - 1) && WholeOne(schema, k, arr[n - 1])
  {
    hide WholeOne;
  }

  /** The elements of a repeated field that come back. */
  lemma {:induction false} ElementsExactly(schema: Schema, ranks: Ranks, k: Kind, v: Value, n: nat)
    requires WellFormed(schema) && Ranked(schema, ranks) && (k.Message? ==> k.name in schema)
    requires v.Table? && n <= |v.arr|
    ensures |Returned(schema, ranks, k, v, n)| <= n
    ensures Returned(schema, ranks, k, v, n) == v.arr[..n] <==> AllWhole(schema, k, v.arr, n)
    decreases v, 3, n
  {
    hide WellFormed, Ranked, WholeOne;
    if n > 0 {
      hide Returned, AllWhole;
      ElementsExactly(schema, ranks, k, v, n - 1);
      OneExactly(schema, ranks, k, v, n);
      AllWholeNext(schema, k, v.arr, n);
      OneMore(Returned(schema, ranks, k, v, n - 1), Returned(schema, ranks, k, v, n), v.arr, n);
    }
  }

  /** The last of `n` elements: it is left out or comes back as the last one, unchanged exactly when it is whole. */
  lemma {:induction false} OneExactly(schema: Schema, ranks: Ranks, k: Kind, v: Value, n: nat)
    requires WellFormed(schema) && Ranked(schema, ranks) && (k.Message? ==> k.name in schema) && v.Table?
    requires 0 < n <= |v.arr|
    ensures var before, after := Returned(schema, ranks, k, v, n - 1), Returned(schema, ranks, k, v, n);
            || (after == before && !WholeOne(schema, k, v.arr[n - 1]))
            || (|after| == |before| + 1 && after[..|before|] == before
                && (after[|before|] == v.arr[n - 1] <==> WholeOne(schema, k, v.arr[n - 1])))
    decreases v, 2, n
  {
    var w, before, after := v.arr[n - 1], Elements(schema, k, v, n - 1), Elements(schema, k, v, n);
    ElementsFit(schema, k, v, n - 1);
    ElementsFit(schema, k, v, n);
    if Accepts(k, w) {
      assert after[..|after| - 1] == before;
      if k.Message? {
        ToMsgConforms(schema, k.name, w);
        TableExactly(schema, ranks, k.name, w);
        assert after[|after| - 1] == One(Some(ToMsg(schema, k.name, w)));
        hide WellFormed, Ranked, FitsOne, Conforms, ToMsg, ToTable, Whole;
      } else {
        ShapeExactly(k, w);
        assert after[|after| - 1] == Scalar(k, w);
        hide WellFormed, Ranked, FitsOne, Conforms;
      }
    } else {
      assert after == before;
    }
  }

  lemma {:induction false} EntryExactly(schema: Schema, ranks: Ranks, t: TypeName, v: Value, i: nat)
    requires WellFormed(schema) && Ranked(schema, ranks) && t in schema && v.Table? && i < |schema[t]|
    requires Shown(schema[t][i]) && schema[t][i].name in v.fields && Conforms(schema, t, ToMsg(schema, t, v))
    ensures var w := v.fields[schema[t][i].name];
            Entry(schema, ranks, t, ToMsg(schema, t, v), i) == w <==> WholeField(schema, schema[t][i], w)
    decreases v, 0
  {
    var f, w := schema[t][i], v.fields[schema[t][i].name];
    SlotsAt(schema, t, v, |schema[t]|, i);
    if f.repeated {
      if w.Table? {
        ElementsExactly(schema, ranks, f.kind, w, |w.arr|);
        assert w.arr[..|w.arr|] == w.arr;
      }
    } else if f.kind.Message? {
      ToMsgConforms(schema, f.kind.name, w);
      TableExactly(schema, ranks, f.kind.name, w);
    } else if Accepts(f.kind, w) {
      ShapeExactly(f.kind, w);
    }
  }

  /**
   A table comes back from its message unchanged exactly when it is whole: all the fields of the schema and no others,
   of the right types, integers that the field or, if it is an unsigned 64-bit one, Lua can hold, and strings without
   a NUL.
   */
  lemma {:induction false} TableExactly(schema: Schema, ranks: Ranks, t: TypeName, v: Value)
    requires WellFormed(schema) && Ranked(schema, ranks) && t in schema
    ensures Normal(schema, ranks, t, v) == v <==> Whole(schema, t, v)
    decreases v, 1
  {
    ToMsgConforms(schema, t, v);
    if v.Table? {
      var m, n := ToMsg(schema, t, v), |schema[t]|;
      var back := Entries(schema, ranks, t, m, n);
      forall i | 0 <= i < n && Shown(schema[t][i])
        ensures schema[t][i].name in back
        ensures schema[t][i].name in v.fields ==>
                  (back[schema[t][i].name] == v.fields[schema[t][i].name]
                   <==> WholeField(schema, schema[t][i], v.fields[schema[t][i].name]))
      {
        EntriesAt(schema, ranks, t, m, n, i);
        if schema[t][i].name in v.fields {
          EntryExactly(schema, ranks, t, v, i);
        }
      }
      EntriesNames(schema, ranks, t, m, n);
    }
  }

  lemma {:induction false} EntriesNames(schema: Schema, ranks: Ranks, t: TypeName, m: Msg, n: nat)
    requires WellFormed(schema) && Ranked(schema, ranks) && t in schema && Conforms(schema, t, m) && n <= |m.slots|
    ensures forall name :: name in Entries(schema, ranks, t, m, n) ==>
              exists i :: 0 <= i < n && Shown(schema[t][i]) && schema[t][i].name == name
    decreases n
  {
    hide Entry, Ranked, WellFormed;
    if n > 0 {
      EntriesNames(schema, ranks, t, m, n - 1);
    }
  }

  // ---------------------------------------------------------------- when the recursion ends

  /** The message below a singular field, created if need be. */
  function Below(schema: Schema, t: TypeName, m: Msg, i: nat): (b: Msg)
    requires WellFormed(schema) && t in schema && Conforms(schema, t, m) && i < |m.slots|
    requires schema[t][i].kind.Message? && !schema[t][i].repeated
    ensures Conforms(schema, schema[t][i].kind.name, b)
  {
    assert Fits(schema, schema[t][i], m.slots[i]);
    DefaultFlat(schema, schema[t][i].kind.name);
    if m.slots[i].msg.Some? then m.slots[i].msg.value else DefaultMsg(schema, schema[t][i].kind.name)
  }

  predicate IsElement(schema: Schema, t: TypeName, m: Msg, i: nat, j: nat)
    requires t in schema
  {
    && i < |m.slots| && i < |schema[t]| && schema[t][i].kind.Message? && schema[t][i].repeated
    && m.slots[i].Many? && j < |m.slots[i].items|
  }

  /** A message of a repeated field. */
  function Element(schema: Schema, t: TypeName, m: Msg, i: nat, j: nat): (b: Msg)
    requires WellFormed(schema) && t in schema && Conforms(schema, t, m) && IsElement(schema, t, m, i, j)
    ensures Conforms(schema, schema[t][i].kind.name, b) && Depth(b) < Depth(m)
  {
    assert Fits(schema, schema[t][i], m.slots[i]) && FitsOne(schema, schema[t][i].kind, m.slots[i].items[j]);
    DepthAt(m.slots, i);
    DepthAt(m.slots[i].items, j);
    m.slots[i].items[j].msg.value
  }

  /** foreachToTable on `m` makes at most `fuel` nested calls. */
  ghost predicate Finishes(schema: Schema, t: TypeName, m: Msg, fuel: nat)
    requires WellFormed(schema) && t in schema && Conforms(schema, t, m)
    decreases fuel
  {
    && fuel > 0
    && (forall i :: 0 <= i < |m.slots| && schema[t][i].kind.Message? && !schema[t][i].repeated ==>
          Finishes(schema, schema[t][i].kind.name, Below(schema, t, m, i), fuel - 1))
    && (forall i: nat, j: nat :: IsElement(schema, t, m, i, j) ==>
          Finishes(schema, schema[t][i].kind.name, Element(schema, t, m, i, j), fuel - 1))
  }

  lemma {:induction false} MoreFuel(schema: Schema, t: TypeName, m: Msg, fuel: nat, more: nat)
    requires WellFormed(schema) && t in schema && Conforms(schema, t, m)
    requires Finishes(schema, t, m, fuel) && fuel <= more
    ensures Finishes(schema, t, m, more)
    decreases fuel
  {
    forall i | 0 <= i < |m.slots| && schema[t][i].kind.Message? && !schema[t][i].repeated
      ensures Finishes(schema, schema[t][i].kind.name, Below(schema, t, m, i), more - 1)
    {
      MoreFuel(schema, schema[t][i].kind.name, Below(schema, t, m, i), fuel - 1, more - 1);
    }
    forall i: nat, j: nat | IsElement(schema, t, m, i, j)
      ensures Finishes(schema, schema[t][i].kind.name, Element(schema, t, m, i, j), more - 1)
    {
      MoreFuel(schema, schema[t][i].kind.name, Element(schema, t, m, i, j), fuel - 1, more - 1);
    }
  }

  /** Calls that suffice: a full descent of the ranks, up to `top`, for every level of what is set. */
  function Calls(depth: nat, top: nat, rank: nat): nat {
    depth * (top + 1) + rank + 1
  }

  lemma Deeper(d: nat, depth: nat, top: nat, r: nat, rank: nat)
    requires d < depth && r <= top
    ensures Calls(d, top, r) <= Calls(depth, top, rank) - 1
  {
    assert (d + 1) * (top + 1) <= depth * (top + 1) by {
      MulUp(d + 1, depth, top + 1);
    }
  }

  lemma MulUp(a: nat, b: nat, c: nat)
    requires a <= b
    ensures a * c <= b * c
  {
  }

  lemma {:induction false} Enough(schema: Schema, ranks: Ranks, top: nat, t: TypeName, m: Msg)
    requires WellFormed(schema) && Ranked(schema, ranks) && t in schema && Conforms(schema, t, m)
    requires forall x :: x in ranks ==> ranks[x] <= top
    ensures Finishes(schema, t, m, Calls(Depth(m), top, ranks[t]))
    decreases Depth(m), ranks[t]
  {
    var fuel := Calls(Depth(m), top, ranks[t]);
    forall i | 0 <= i < |m.slots| && schema[t][i].kind.Message? && !schema[t][i].repeated
      ensures Finishes(schema, schema[t][i].kind.name, Below(schema, t, m, i), fuel - 1)
    {
      EnoughBelow(schema, ranks, top, t, m, i, fuel);
    }
    forall i: nat, j: nat | IsElement(schema, t, m, i, j)
      ensures Finishes(schema, schema[t][i].kind.name, Element(schema, t, m, i, j), fuel - 1)
    {
      EnoughItem(schema, ranks, top, t, m, i, j, fuel);
    }
  }

  lemma {:induction false} EnoughBelow(schema: Schema, ranks: Ranks, top: nat, t: TypeName, m: Msg, i: nat, fuel: nat)
    requires WellFormed(schema) && Ranked(schema, ranks) && t in schema && Conforms(schema, t, m) && i < |m.slots|
    requires forall x :: x in ranks ==> ranks[x] <= top
    requires schema[t][i].kind.Message? && !schema[t][i].repeated && fuel == Calls(Depth(m), top, ranks[t])
    ensures Finishes(schema, schema[t][i].kind.name, Below(schema, t, m, i), fuel - 1)
    decreases Depth(m), ranks[t], 0
  {
    var u, b := schema[t][i].kind.name, Below(schema, t, m, i);
    assert Fits(schema, schema[t][i], m.slots[i]);
    hide Finishes;
    DepthAt(m.slots, i);
    DefaultFlat(schema, u);
    if m.slots[i].msg.Some? {
      Deeper(Depth(b), Depth(m), top, ranks[u], ranks[t]);
    } else {
      MulUp(0, Depth(m), top + 1);
    }
    Enough(schema, ranks, top, u, b);
    MoreFuel(schema, u, b, Calls(Depth(b), top, ranks[u]), fuel - 1);
  }

  lemma {:induction false} EnoughItem(schema: Schema, ranks: Ranks, top: nat, t: TypeName, m: Msg, i: nat, j: nat,
        fuel: nat)
    requires WellFormed(schema) && Ranked(schema, ranks) && t in schema && Conforms(schema, t, m)
    requires forall x :: x in ranks ==> ranks[x] <= top
    requires IsElement(schema, t, m, i, j) && fuel == Calls(Depth(m), top, ranks[t])
    ensures Finishes(schema, schema[t][i].kind.name, Element(schema, t, m, i, j), fuel - 1)
    decreases Depth(m), ranks[t], 0
  {
    var u, b := schema[t][i].kind.name, Element(schema, t, m, i, j);
    hide Finishes;
    Deeper(Depth(b), Depth(m), top, ranks[u], ranks[t]);
    Enough(schema, ranks, top, u, b);
    MoreFuel(schema, u, b, Calls(Depth(b), top, ranks[u]), fuel - 1);
  }

  lemma {:induction false} TopRank(ranks: Ranks, ts: set<TypeName>) returns (top: nat)
    requires ts <= ranks.Keys
    ensures forall x :: x in ts ==> ranks[x] <= top
    decreases ts
  {
    if ts == {} {
      top := 0;
    } else {
      var x :| x in ts;
      top := TopRank(ranks, ts - {x});
      if ranks[x] > top {
        top := ranks[x];
      }
    }
  }

  ghost predicate Ends(schema: Schema, t: TypeName, m: Msg)
    requires WellFormed(schema) && t in schema && Conforms(schema, t, m)
  {
    exists fuel: nat :: Finishes(schema, t, m, fuel)
  }

  ghost predicate DefaultEnds(schema: Schema, t: TypeName, fuel: nat)
    requires WellFormed(schema) && t in schema
  {
    DefaultFlat(schema, t);
    Finishes(schema, t, DefaultMsg(schema, t), fuel)
  }

  /** The fewest calls that suffice for a new message. */
  ghost function Least(schema: Schema, t: TypeName, fuel: nat): (n: nat)
    requires WellFormed(schema) && t in schema && DefaultEnds(schema, t, fuel)
    ensures DefaultEnds(schema, t, n) && forall k: nat :: DefaultEnds(schema, t, k) ==> n <= k
  {
    if fuel > 0 && DefaultEnds(schema, t, fuel - 1) then Least(schema, t, fuel - 1)
    else
      NoLess(schema, t, fuel);
      fuel
  }

  lemma NoLess(schema: Schema, t: TypeName, fuel: nat)
    requires WellFormed(schema) && t in schema && DefaultEnds(schema, t, fuel)
    requires fuel == 0 || !DefaultEnds(schema, t, fuel - 1)
    ensures forall k: nat :: DefaultEnds(schema, t, k) ==> fuel <= k
  {
    hide Finishes;
    forall k: nat | DefaultEnds(schema, t, k) ensures fuel <= k {
      if k < fuel {
        DefaultFlat(schema, t);
        MoreFuel(schema, t, DefaultMsg(schema, t), k, fuel - 1);
      }
    }
  }

  ghost function LeastFuel(schema: Schema, t: TypeName): (n: nat)
    requires WellFormed(schema) && t in schema && exists fuel: nat :: DefaultEnds(schema, t, fuel)
    ensures DefaultEnds(schema, t, n) && forall k: nat :: DefaultEnds(schema, t, k) ==> n <= k
  {
    var fuel: nat :| DefaultEnds(schema, t, fuel);
    Least(schema, t, fuel)
  }

  lemma DefaultDescends(schema: Schema, t: TypeName, i: nat, fuel: nat)
    requires WellFormed(schema) && t in schema && DefaultEnds(schema, t, fuel) && i < |schema[t]|
    requires schema[t][i].kind.Message? && !schema[t][i].repeated
    ensures fuel > 0 && DefaultEnds(schema, schema[t][i].kind.name, fuel - 1)
  {
    DefaultFlat(schema, t);
    var m := DefaultMsg(schema, t);
    assert m.slots[i] == One(None);
    assert Below(schema, t, m, i) == DefaultMsg(schema, schema[t][i].kind.name);
  }

  lemma RanksOfEnding(schema: Schema) returns (ranks: Ranks)
    requires WellFormed(schema) && forall t :: t in schema ==> exists fuel: nat :: DefaultEnds(schema, t, fuel)
    ensures Ranked(schema, ranks)
  {
    ranks := map t | t in schema :: LeastFuel(schema, t);
    forall t, i | t in schema && 0 <= i < |schema[t]| && schema[t][i].kind.Message? && !schema[t][i].repeated
      ensures ranks[schema[t][i].kind.name] < ranks[t]
    {
      DefaultDescends(schema, t, i, ranks[t]);
    }
  }

  /**
   Message to table ends on every message of every type if and only if no type contains itself through singular
   fields; recursion through repeated fields does no harm.
   */
  lemma EndsExactly(schema: Schema)
    requires WellFormed(schema)
    ensures (exists ranks :: Ranked(schema, ranks)) <==>
            (forall t, m :: t in schema && Conforms(schema, t, m) ==> Ends(schema, t, m))
  {
    if ranks :| Ranked(schema, ranks) {
      var top := TopRank(ranks, ranks.Keys);
      forall t, m | t in schema && Conforms(schema, t, m) ensures Ends(schema, t, m) {
        Enough(schema, ranks, top, t, m);
      }
    }
    if forall t, m :: t in schema && Conforms(schema, t, m) ==> Ends(schema, t, m) {
      forall t | t in schema ensures exists fuel: nat :: DefaultEnds(schema, t, fuel) {
        DefaultFlat(schema, t);
        assert Ends(schema, t, DefaultMsg(schema, t));
        var fuel: nat :| Finishes(schema, t, DefaultMsg(schema, t), fuel);
        assert DefaultEnds(schema, t, fuel);
      }
      var ranks := RanksOfEnding(schema);
    }
  }

  /** A cycle of singular fields: each type has a field of the next type, the last is the first. */
  ghost predicate Cycle(schema: Schema, c: seq<TypeName>) {
    && |c| > 1 && c[0] == c[|c| - 1]
    && (forall k :: 0 <= k < |c| ==> c[k] in schema)
    && (forall k :: 0 <= k < |c| - 1 ==>
          exists i :: 0 <= i < |schema[c[k]]|
            && schema[c[k]][i] == Field(schema[c[k]][i].name, Message(c[k + 1]), false, None))
  }

  /** On such a cycle even an empty message never ends. */
  lemma {:induction false} CycleRunsOn(schema: Schema, c: seq<TypeName>, k: nat, fuel: nat)
    requires WellFormed(schema) && Cycle(schema, c) && k < |c| - 1
    ensures !DefaultEnds(schema, c[k], fuel)
    decreases fuel
  {
    if DefaultEnds(schema, c[k], fuel) {
      var i :| 0 <= i < |schema[c[k]]|
        && schema[c[k]][i] == Field(schema[c[k]][i].name, Message(c[k + 1]), false, None);
      DefaultDescends(schema, c[k], i, fuel);
      CycleRunsOn(schema, c, if k + 1 == |c| - 1 then 0 else k + 1, fuel - 1);
    }
  }

  // ---------------------------------------------------------------- messages that survive unchanged

  /**
   Every singular field is set that can be unset, no string has a NUL, and fields of unsupported types hold nothing.
   */
  ghost predicate Full(m: Msg)
    decreases m, 1
  {
    forall i :: 0 <= i < |m.slots| ==> FullSlot(m.slots[i])
  }

  ghost predicate FullSlot(s: Slot)
    decreases s, 0
  {
    match s
    case One(msg) => msg.Some? && Full(msg.value)
    case Many(items) => forall j :: 0 <= j < |items| ==> FullSlot(items[j]) && !items[j].Raw?
    case StrSlot(s) => 0 !in s
    case Raw(content) => content == []
    case Unset => false
    case _ => true
  }

  /** A message is its own rebuilding exactly when it is full. */
  lemma {:induction false} RebuiltExactly(schema: Schema, ranks: Ranks, t: TypeName, m: Msg)
    requires WellFormed(schema) && Ranked(schema, ranks) && t in schema && Conforms(schema, t, m)
    ensures ToMsg(schema, t, ToTable(schema, ranks, t, m)) == m <==> Full(m)
    decreases Depth(m), ranks[t] + 1, 2, 0
  {
    BackAgain(schema, ranks, t, m);
    var n, r := |m.slots|, Rebuilt(schema, ranks, t, m);
    forall i | 0 <= i < n ensures r.slots[i] == m.slots[i] <==> FullSlot(m.slots[i]) {
      RebuiltAt(schema, ranks, t, m, n, i);
      SlotExactly(schema, ranks, t, m, i);
    }
    hide Conforms, WellFormed, Ranked;
    if Full(m) {
      assert r.slots == m.slots;
    }
  }

  lemma {:induction false} SlotExactly(schema: Schema, ranks: Ranks, t: TypeName, m: Msg, i: nat)
    requires WellFormed(schema) && Ranked(schema, ranks) && t in schema && Conforms(schema, t, m) && i < |m.slots|
    ensures RebuiltSlot(schema, ranks, t, m, i) == m.slots[i] <==> FullSlot(m.slots[i])
    decreases Depth(m), ranks[t] + 1, 0, 0
  {
    var f, s := schema[t][i], m.slots[i];
    assert Fits(schema, f, s);
    DepthAt(m.slots, i);
    if f.repeated {
      ItemsExactly(schema, ranks, f.kind, s.items);
    } else if f.kind.Message? {
      DefaultFlat(schema, f.kind.name);
      if s.msg.Some? {
        BackAgain(schema, ranks, f.kind.name, s.msg.value);
        RebuiltExactly(schema, ranks, f.kind.name, s.msg.value);
      }
    } else if s.StrSlot? {
      CutNothing(s.s);
    }
  }

  lemma {:induction false} ItemsExactly(schema: Schema, ranks: Ranks, k: Kind, items: seq<Slot>)
    requires WellFormed(schema) && Ranked(schema, ranks)
    requires forall j :: 0 <= j < |items| ==> FitsOne(schema, k, items[j]) && items[j] != One(None)
    ensures RebuiltItems(schema, ranks, k, items) == items <==>
            forall j :: 0 <= j < |items| ==> FullSlot(items[j]) && !items[j].Raw?
    decreases SlotsDepth(items), 0, 0, 0
  {
    RebuiltItemsAt(schema, ranks, k, items);
    hide RebuiltItems, WellFormed, Ranked;
    var r := RebuiltItems(schema, ranks, k, items);
    if k.Unsupported? {
      assert items != [] ==> FitsOne(schema, k, items[0]);
    } else {
      forall j | 0 <= j < |items| ensures r[j] == items[j] <==> FullSlot(items[j]) && !items[j].Raw? {
        ItemExactly(schema, ranks, k, items, j);
      }
      assert r == items <==> forall j :: 0 <= j < |items| ==> r[j] == items[j];
    }
  }

  lemma {:induction false} ItemExactly(schema: Schema, ranks: Ranks, k: Kind, items: seq<Slot>, j: nat)
    requires WellFormed(schema) && Ranked(schema, ranks) && j < |items| && !k.Unsupported?
    requires FitsOne(schema, k, items[j]) && items[j] != One(None)
    ensures FullSlot(items[j]) && !items[j].Raw? <==>
            items[j] ==
              if k.Message? then One(Some(Rebuilt(schema, ranks, k.name, items[j].msg.value))) else Cut(items[j])
    decreases SlotsDepth(items), 0, 0, 0, 0
  {
    DepthAt(items, j);
    var s := items[j];
    if k.Message? {
      BackAgain(schema, ranks, k.name, s.msg.value);
      RebuiltExactly(schema, ranks, k.name, s.msg.value);
    } else if s.StrSlot? {
      CutNothing(s.s);
    }
  }

  // ---------------------------------------------------------------- the two procedures

  lemma NoTable(schema: Schema, t: TypeName, v: Value)
    requires WellFormed(schema) && t in schema && !v.Table?
    ensures ToMsg(schema, t, v) == Msg(Defaults(schema[t]))
  {
  }

  lemma TableMsg(schema: Schema, t: TypeName, v: Value)
    requires WellFormed(schema) && t in schema && v.Table?
    ensures ToMsg(schema, t, v) == Msg(Slots(schema, t, v, |schema[t]|))
  {
  }

  lemma NoSlots(schema: Schema, t: TypeName, v: Value)
    requires WellFormed(schema) && t in schema && v.Table?
    ensures Slots(schema, t, v, 0) == []
  {
  }

  /** What the loop has to put in next. */
  lemma NextSlot(schema: Schema, t: TypeName, v: Value, i: nat)
    requires WellFormed(schema) && t in schema && v.Table? && i < |schema[t]|
    ensures var f := schema[t][i];
            && Declared(schema, f)
            && Slots(schema, t, v, i + 1) == Slots(schema, t, v, i) +
                 [if f.repeated then
                    if f.name in v.fields && v.fields[f.name].Table?
                    then Many(Elements(schema, f.kind, v.fields[f.name], |v.fields[f.name].arr|)) else DefaultSlot(f)
                  else if f.kind.Message? then
                    One(Some(if f.name in v.fields then ToMsg(schema, f.kind.name, v.fields[f.name])
                             else Msg(Defaults(schema[f.kind.name]))))
                  else if f.name in v.fields && Accepts(f.kind, v.fields[f.name])
                  then Scalar(f.kind, v.fields[f.name]) else DefaultSlot(f)]
  {
    hide Elements, ToMsg, Scalar, Typed;
  }

  method ForeachToMsg(schema: Schema, t: TypeName, v: Value) returns (m: Msg)
    requires WellFormed(schema) && t in schema
    ensures m == ToMsg(schema, t, v)
    decreases v
  {
    hide WellFormed, ToMsg, Elements, Scalar, Typed, Fill, Slots, DefaultSlot;
    var fields := schema[t];
    var slots := Defaults(fields);
    if !v.Table? {
      NoTable(schema, t, v);
      return Msg(slots);
    }
    NoSlots(schema, t, v);
    for i := 0 to |fields|
      invariant |slots| == |fields| && slots[..i] == Slots(schema, t, v, i) && slots[i..] == Defaults(fields)[i..]
    {
      var f := fields[i];
      NextSlot(schema, t, v, i);
      ghost var before := slots;
      assert slots[i] == slots[i..][0] == DefaultSlot(f);
      if f.repeated {
        if f.name in v.fields && v.fields[f.name].Table? {
          var items := RepeatedToMsg(schema, f.kind, v.fields[f.name]);
          slots := slots[i := Many(items)];
        }
      } else if f.kind.Message? {
        if f.name in v.fields {
          var sub := ForeachToMsg(schema, f.kind.name, v.fields[f.name]);
          slots := slots[i := One(Some(sub))];
        } else {
          slots := slots[i := One(Some(Msg(Defaults(schema[f.kind.name]))))];
        }
      } else if f.name in v.fields && Accepts(f.kind, v.fields[f.name]) {
        slots := slots[i := Scalar(f.kind, v.fields[f.name])];
      }
      assert slots[..i] == before[..i] && slots[..i + 1] == slots[..i] + [slots[i]];
      assert slots[i + 1..] == before[i..][1..] == Defaults(fields)[i..][1..] == Defaults(fields)[i + 1..];
    }
    assert slots[..|fields|] == slots;
    m := Msg(slots);
    TableMsg(schema, t, v);
  }

  /** The inner loop, over the elements of a table for a repeated field. */
  method RepeatedToMsg(schema: Schema, k: Kind, v: Value) returns (items: seq<Slot>)
    requires WellFormed(schema) && (k.Message? ==> k.name in schema) && v.Table?
    ensures items == Elements(schema, k, v, |v.arr|)
    decreases v
  {
    items := [];
    for j := 0 to |v.arr|
      invariant items == Elements(schema, k, v, j)
    {
      if Accepts(k, v.arr[j]) {
        if k.Message? {
          var sub := ForeachToMsg(schema, k.name, v.arr[j]);
          items := items + [One(Some(sub))];
        } else {
          items := items + [Scalar(k, v.arr[j])];
        }
      }
    }
  }

  /** The message that reading a singular field comes to. */
  function SubMsg(schema: Schema, f: Field, s: Slot): Msg
    requires f.kind.Message? && f.kind.name in schema && s.One?
  {
    if s.msg.Some? then s.msg.value else DefaultMsg(schema, f.kind.name)
  }

  lemma SlotOf(schema: Schema, ranks: Ranks, t: TypeName, m: Msg, i: nat)
    requires WellFormed(schema) && Ranked(schema, ranks) && t in schema && Conforms(schema, t, m) && i < |m.slots|
    ensures |m.slots| == |schema[t]| && t in ranks
    ensures var f, s := schema[t][i], m.slots[i];
            if f.repeated then
              && s.Many? && SlotsDepth(s.items) <= Depth(m)
              && forall j :: 0 <= j < |s.items| ==> FitsOne(schema, f.kind, s.items[j]) && s.items[j] != One(None)
            else if f.kind.Message? then
              && s.One? && f.kind.name in schema && f.kind.name in ranks
              && Conforms(schema, f.kind.name, SubMsg(schema, f, s))
              && Depth(SubMsg(schema, f, s)) <= Depth(m) && ranks[f.kind.name] < ranks[t]
            else
              !f.kind.Unsupported? ==> Read(f, s).BoolSlot? || Read(f, s).IntSlot? || Read(f, s).StrSlot?
  {
    var f, s := schema[t][i], m.slots[i];
    assert Fits(schema, f, s);
    DepthAt(m.slots, i);
    if f.kind.Message? {
      DefaultFlat(schema, f.kind.name);
    }
  }

  lemma EntriesNext(schema: Schema, ranks: Ranks, t: TypeName, m: Msg, i: nat)
    requires WellFormed(schema) && Ranked(schema, ranks) && t in schema && Conforms(schema, t, m) && i < |m.slots|
    requires |m.slots| == |schema[t]|
    ensures var before, after := Entries(schema, ranks, t, m, i), Entries(schema, ranks, t, m, i + 1);
            after == if Shown(schema[t][i]) then before[schema[t][i].name := Entry(schema, ranks, t, m, i)] else before
  {
    hide Entry, WellFormed, Ranked;
  }

  lemma EntryIs(schema: Schema, ranks: Ranks, t: TypeName, m: Msg, i: nat)
    requires WellFormed(schema) && Ranked(schema, ranks) && t in schema && Conforms(schema, t, m) && i < |m.slots|
    requires |m.slots| == |schema[t]| && Shown(schema[t][i])
    ensures var f, s := schema[t][i], m.slots[i];
            && (f.repeated ==>
                  s.Many?
                  && (forall j :: 0 <= j < |s.items| ==> FitsOne(schema, f.kind, s.items[j]) && s.items[j] != One(None))
                  && Entry(schema, ranks, t, m, i) == Table(map[], Items(schema, ranks, f.kind, s.items)))
            && (!f.repeated && f.kind.Message? ==>
                  s.One? && f.kind.name in schema && Conforms(schema, f.kind.name, SubMsg(schema, f, s))
                  && Entry(schema, ranks, t, m, i) == ToTable(schema, ranks, f.kind.name, SubMsg(schema, f, s)))
            && (!f.repeated && !f.kind.Message? ==>
                  (Read(f, s).BoolSlot? || Read(f, s).IntSlot? || Read(f, s).StrSlot?)
                  && Entry(schema, ranks, t, m, i) == Shape(Read(f, s)))
  {
    hide WellFormed, Ranked, ToTable, Items, Shape, FitsOne;
    SlotOf(schema, ranks, t, m, i);
  }

  method ForeachToTable(schema: Schema, ghost ranks: Ranks, t: TypeName, m: Msg) returns (v: Value)
    requires WellFormed(schema) && Ranked(schema, ranks) && t in schema && Conforms(schema, t, m)
    ensures v == ToTable(schema, ranks, t, m)
    decreases Depth(m), ranks[t] + 1
  {
    hide WellFormed, Ranked, Conforms, FitsOne, Fits, Entry, Entries, Items, Shape, Read, DefaultMsg;
    var entries := map[];
    NoEntries(schema, ranks, t, m);
    for i := 0 to |m.slots|
      invariant entries == Entries(schema, ranks, t, m, i)
    {
      SlotOf(schema, ranks, t, m, i);
      EntriesNext(schema, ranks, t, m, i);
      var f, s := schema[t][i], m.slots[i];
      if Shown(f) {
        EntryIs(schema, ranks, t, m, i);
      }
      if f.repeated {
        var arr := RepeatedToTable(schema, ranks, f.kind, s.items);
        entries := entries[f.name := Table(map[], arr)];
      } else if f.kind.Message? {
        var sub := ForeachToTable(schema, ranks, f.kind.name,
                                  if s.msg.Some? then s.msg.value else DefaultMsg(schema, f.kind.name));
        entries := entries[f.name := sub];
      } else if !f.kind.Unsupported? {
        entries := entries[f.name := Shape(Read(f, s))];
      }
    }
    v := Table(entries, []);
  }

  lemma NoEntries(schema: Schema, ranks: Ranks, t: TypeName, m: Msg)
    requires WellFormed(schema) && Ranked(schema, ranks) && t in schema && Conforms(schema, t, m)
    ensures Entries(schema, ranks, t, m, 0) == map[]
  {
  }

  /** The inner loop, over the elements of a repeated field. */
  method RepeatedToTable(schema: Schema, ghost ranks: Ranks, k: Kind, items: seq<Slot>) returns (arr: seq<Value>)
    requires WellFormed(schema) && Ranked(schema, ranks)
    requires forall j :: 0 <= j < |items| ==> FitsOne(schema, k, items[j]) && items[j] != One(None)
    ensures arr == Items(schema, ranks, k, items)
    decreases SlotsDepth(items), 0
  {
    arr := [];
    for j := 0 to |items|
      invariant arr == Items(schema, ranks, k, items[..j])
    {
      var item := items[j];
      assert FitsOne(schema, k, item) && items[..j + 1][..j] == items[..j];
      DepthAt(items, j);
      if k.Message? {
        var sub := ForeachToTable(schema, ranks, k.name, item.msg.value);
        arr := arr + [sub];
      } else if !k.Unsupported? {
        arr := arr + [Shape(item)];
      }
    }
    assert items[..|items|] == items;
  }
}
