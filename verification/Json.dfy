/**
 Lua tables as JSON trees and back (src/json/json.cpp; RFC 8259, sections 4 and 5). A Lua value to be encoded lists a
 table's contents in the order in which lua_next visits them; the value that decoding builds has no order.
 */
module Json {
  import opened Basics

  /** List([]) is the empty table; Other is anything JSON has no place for, such as a function. */
  datatype Lua = Bool(b: bool) | Int(i: int) | Float(x: real) | Str(s: Bytes) | Other | List(items: seq<Lua>)
    | Dict(entries: seq<(Bytes, Lua)>)

  datatype Node = JBool(b: bool) | JNumber(x: real) | JString(s: Bytes) | JArray(items: seq<Node>)
    | JObject(members: seq<(Bytes, Node)>)

  datatype Value = VBool(b: bool) | VInt(i: int) | VFloat(x: real) | VStr(s: Bytes) | VOther
    | VList(items: seq<Value>) | VDict(fields: map<Bytes, Value>)

  /** Tables are sequences or have string keys only, each key once. */
  ghost predicate Shaped(v: Lua) {
    match v
    case List(items) => forall i :: 0 <= i < |items| ==> Shaped(items[i])
    case Dict(entries) =>
      && entries != [] && DistinctNames(v)
      && (forall i :: 0 <= i < |entries| ==> Shaped(entries[i].1))
    case _ => true
  }

  // ---------------------------------------------------------------- fetchCreateJson

  /** None where no item is made: for other types, and for an empty table, whose loop never creates a root. */
  function Encode(v: Lua): Option<Node>
    decreases v, 1, 0
  {
    match v
    case Bool(b) => Some(JBool(b))
    case Int(i) => Some(JNumber(i as real))
    case Float(x) => Some(JNumber(x))
    case Str(s) => Some(JString(CutNul(s)))
    case Other => None
    case List(items) => if items == [] then None else Some(JArray(EncodeItems(v, |items|)))
    case Dict(entries) => if entries == [] then None else Some(JObject(EncodeEntries(v, |entries|)))
  }

  function EncodeItems(v: Lua, n: nat): seq<Node>
    requires v.List? && n <= |v.items|
    decreases v, 0, n
  {
    if n == 0 then []
    else
      var item := Encode(v.items[n - 1]);
      EncodeItems(v, n - 1) + if item.Some? then [item.value] else []
  }

  function EncodeEntries(v: Lua, n: nat): seq<(Bytes, Node)>
    requires v.Dict? && n <= |v.entries|
    decreases v, 0, n
  {
    if n == 0 then []
    else
      var item := Encode(v.entries[n - 1].1);
      EncodeEntries(v, n - 1) + if item.Some? then [(CutNul(v.entries[n - 1].0), item.value)] else []
  }

  // ---------------------------------------------------------------- fetchCreateLuaTable

  /** cJSON keeps a number as a double and as an int; it is pushed as an integer when both say the same. */
  predicate FitsInt(x: real) {
    x.Floor as real == x && -0x8000_0000 <= x.Floor < 0x8000_0000
  }

  function DecodeNumber(x: real): Value {
    if FitsInt(x) then VInt(x.Floor) else VFloat(x)
  }

  function Decode(node: Node): Value
    decreases node, 1, 0
  {
    match node
    case JBool(b) => VBool(b)
    case JNumber(x) => DecodeNumber(x)
    case JString(s) => VStr(s)
    case JArray(items) => VList(DecodeItems(node, |items|))
    case JObject(members) => if members == [] then VList([]) else VDict(DecodeMembers(node, |members|))
  }

  function DecodeItems(node: Node, n: nat): (r: seq<Value>)
    requires node.JArray? && n <= |node.items|
    ensures |r| == n && forall i :: 0 <= i < n ==> r[i] == Decode(node.items[i])
    decreases node, 0, n
  {
    if n == 0 then [] else DecodeItems(node, n - 1) + [Decode(node.items[n - 1])]
  }

  /** A later member with the same name overwrites an earlier one. */
  function DecodeMembers(node: Node, n: nat): map<Bytes, Value>
    requires node.JObject? && n <= |node.members|
    decreases node, 0, n
  {
    if n == 0 then map[] else DecodeMembers(node, n - 1)[node.members[n - 1].0 := Decode(node.members[n - 1].1)]
  }

  // ---------------------------------------------------------------- the round trip

  /** The Lua value without the order of its tables. */
  function Meaning(v: Lua): Value
    decreases v, 1, 0
  {
    match v
    case Bool(b) => VBool(b)
    case Int(i) => VInt(i)
    case Float(x) => VFloat(x)
    case Str(s) => VStr(s)
    case Other => VOther
    case List(items) => VList(Meanings(v, |items|))
    case Dict(entries) => VDict(Fields(v, |entries|))
  }

  function Meanings(v: Lua, n: nat): (r: seq<Value>)
    requires v.List? && n <= |v.items|
    ensures |r| == n && forall i :: 0 <= i < n ==> r[i] == Meaning(v.items[i])
    decreases v, 0, n
  {
    if n == 0 then [] else Meanings(v, n - 1) + [Meaning(v.items[n - 1])]
  }

  function Fields(v: Lua, n: nat): map<Bytes, Value>
    requires v.Dict? && n <= |v.entries|
    decreases v, 0, n
  {
    if n == 0 then map[] else Fields(v, n - 1)[v.entries[n - 1].0 := Meaning(v.entries[n - 1].1)]
  }

  /** json.decode(json.encode(t)); a table without a root is printed as an empty object. */
  function RoundTrip(t: Lua): Value {
    match Encode(t)
    case None => VList([])
    case Some(node) => Decode(node)
  }

  /**
   What JSON carries: no function or other foreign value, integers of 32 bits, no float that is such an integer, no NUL
   in strings and keys, and no empty table inside another.
   */
  ghost predicate Carried(v: Lua) {
    match v
    case Bool(_) => true
    case Int(i) => -0x8000_0000 <= i < 0x8000_0000
    case Float(x) => !FitsInt(x)
    case Str(s) => 0 !in s
    case Other => false
    case List(items) => forall i :: 0 <= i < |items| ==> items[i] != List([]) && Carried(items[i])
    case Dict(entries) =>
      forall i :: 0 <= i < |entries| ==> 0 !in entries[i].0 && entries[i].1 != List([]) && Carried(entries[i].1)
  }

  /** Entry by entry: it is kept, under its own name, with its own meaning. */
  ghost predicate Kept(v: Lua) {
    v != List([]) && Encode(v).Some? && Decode(Encode(v).value) == Meaning(v)
  }

  lemma {:induction false} ItemsLength(v: Lua, n: nat)
    requires v.List? && n <= |v.items|
    ensures |EncodeItems(v, n)| <= n
    ensures |EncodeItems(v, n)| == n <==> forall i :: 0 <= i < n ==> Encode(v.items[i]).Some?
    ensures |EncodeItems(v, n)| == n ==> forall i :: 0 <= i < n ==> Encode(v.items[i]) == Some(EncodeItems(v, n)[i])
    decreases n
  {
    if n > 0 {
      ItemsLength(v, n - 1);
    }
  }

  lemma ListExactly(v: Lua)
    requires v.List? && v.items != []
    ensures RoundTrip(v) == Meaning(v) <==> forall i :: 0 <= i < |v.items| ==> Kept(v.items[i])
  {
    var n := |v.items|;
    var node := JArray(EncodeItems(v, n));
    ItemsLength(v, n);
    assert Encode(v) == Some(node);
    if RoundTrip(v) == Meaning(v) {
      assert |node.items| == |DecodeItems(node, |node.items|)| == |Meanings(v, n)|;
      forall i | 0 <= i < n ensures Kept(v.items[i]) {
        assert DecodeItems(node, n)[i] == Meanings(v, n)[i];
      }
    }
    if forall i :: 0 <= i < n ==> Kept(v.items[i]) {
      assert DecodeItems(node, n) == Meanings(v, n);
    }
  }

  /** The names of decoded members have no NUL, and each of the first `n` entries that is kept gives its own. */
  lemma {:induction false} FieldsAt(v: Lua, n: nat, k: Bytes)
    requires v.Dict? && n <= |v.entries| && DistinctNames(v)
    ensures k in Fields(v, n) <==> exists i :: 0 <= i < n && v.entries[i].0 == k
    ensures forall i :: 0 <= i < n && v.entries[i].0 == k ==> Fields(v, n)[k] == Meaning(v.entries[i].1)
    decreases n
  {
    if n > 0 {
      FieldsAt(v, n - 1, k);
    }
  }

  lemma {:induction false} MembersPrefix(a: Node, b: Node, n: nat)
    requires a.JObject? && b.JObject? && n <= |a.members| && n <= |b.members| && a.members[..n] == b.members[..n]
    ensures DecodeMembers(a, n) == DecodeMembers(b, n)
    decreases n
  {
    if n > 0 {
      assert a.members[..n - 1] == a.members[..n][..n - 1] == b.members[..n - 1];
      assert a.members[n - 1] == a.members[..n][n - 1] == b.members[n - 1];
      MembersPrefix(a, b, n - 1);
    }
  }

  /** What decoding makes of the first `n` entries. */
  function Decoded(v: Lua, n: nat): map<Bytes, Value>
    requires v.Dict? && n <= |v.entries|
  {
    var node := JObject(EncodeEntries(v, n));
    DecodeMembers(node, |node.members|)
  }

  lemma DecodedStep(v: Lua, n: nat)
    requires v.Dict? && 0 < n <= |v.entries|
    ensures Decoded(v, n) ==
            var item := Encode(v.entries[n - 1].1);
            if item.Some? then Decoded(v, n - 1)[CutNul(v.entries[n - 1].0) := Decode(item.value)]
            else Decoded(v, n - 1)
  {
    var a, b := JObject(EncodeEntries(v, n - 1)), JObject(EncodeEntries(v, n));
    if Encode(v.entries[n - 1].1).Some? {
      MembersPrefix(a, b, |a.members|);
    } else {
      assert b.members == a.members;
    }
  }

  /** All decoded names are NUL-free. */
  lemma {:induction false} DecodedClean(v: Lua, n: nat, k: Bytes)
    requires v.Dict? && n <= |v.entries| && k in Decoded(v, n)
    ensures 0 !in k && exists i :: 0 <= i < n && CutNul(v.entries[i].0) == k && Encode(v.entries[i].1).Some?
    decreases n
  {
    if n > 0 {
      DecodedStep(v, n);
      if k in Decoded(v, n - 1) {
        DecodedClean(v, n - 1, k);
      } else {
        CutTwice(v.entries[n - 1].0);
        CutNothing(k);
      }
    }
  }

  ghost predicate CleanNames(v: Lua)
    requires v.Dict?
  {
    forall i :: 0 <= i < |v.entries| ==> 0 !in v.entries[i].0
  }

  ghost predicate DistinctNames(v: Lua)
    requires v.Dict?
  {
    forall i, j :: 0 <= i < j < |v.entries| ==> v.entries[i].0 != v.entries[j].0
  }

  lemma OtherName(v: Lua, i: nat, j: nat)
    requires v.Dict? && DistinctNames(v) && i < |v.entries| && j < |v.entries| && i != j
    ensures v.entries[i].0 != v.entries[j].0
  {
  }

  /** With NUL-free names nothing is overwritten. */
  lemma {:induction false} DecodedAt(v: Lua, n: nat, i: nat)
    requires v.Dict? && i < |v.entries| && n <= |v.entries| && DistinctNames(v) && CleanNames(v)
    ensures v.entries[i].0 in Decoded(v, n) <==> i < n && Encode(v.entries[i].1).Some?
    ensures i < n && Encode(v.entries[i].1).Some? ==>
        Decoded(v, n)[v.entries[i].0] == Decode(Encode(v.entries[i].1).value)
    decreases n
  {
    if n == 0 {
      assert EncodeEntries(v, 0) == [];
    } else {
      hide Encode, Decode, Decoded, CutNul, DistinctNames;
      DecodedStep(v, n);
      DecodedAt(v, n - 1, i);
      CutNothing(v.entries[n - 1].0);
      if i != n - 1 {
        OtherName(v, i, n - 1);
      }
    }
  }

  lemma DictKept(v: Lua)
    requires v.Dict? && DistinctNames(v)
    requires forall i :: 0 <= i < |v.entries| ==> 0 !in v.entries[i].0 && Kept(v.entries[i].1)
    ensures Decoded(v, |v.entries|) == Fields(v, |v.entries|)
  {
    var n := |v.entries|;
    var d, f := Decoded(v, n), Fields(v, n);
    hide Decoded, Fields, Encode, Decode, Meaning;
    forall k ensures k in d <==> k in f {
      FieldsAt(v, n, k);
      if k in d {
        DecodedClean(v, n, k);
        var i :| 0 <= i < n && CutNul(v.entries[i].0) == k;
        CutNothing(v.entries[i].0);
      }
      if k in f {
        var i :| 0 <= i < n && v.entries[i].0 == k;
        DecodedAt(v, n, i);
      }
    }
    forall k | k in f ensures d[k] == f[k] {
      FieldsAt(v, n, k);
      var i :| 0 <= i < n && v.entries[i].0 == k;
      DecodedAt(v, n, i);
    }
  }

  lemma DictLost(v: Lua)
    requires v.Dict? && DistinctNames(v)
    requires Decoded(v, |v.entries|) == Fields(v, |v.entries|)
    ensures forall i :: 0 <= i < |v.entries| ==> 0 !in v.entries[i].0 && Kept(v.entries[i].1)
  {
    var n := |v.entries|;
    hide Decoded, Fields, Decode, Meaning;
    forall i | 0 <= i < n ensures 0 !in v.entries[i].0 {
      FieldsAt(v, n, v.entries[i].0);
      DecodedClean(v, n, v.entries[i].0);
    }
    forall i | 0 <= i < n ensures Kept(v.entries[i].1) {
      FieldsAt(v, n, v.entries[i].0);
      DecodedAt(v, n, i);
    }
  }

  lemma DictExactly(v: Lua)
    requires v.Dict? && v.entries != [] && DistinctNames(v)
    ensures RoundTrip(v) == Meaning(v) <==>
            forall i :: 0 <= i < |v.entries| ==> 0 !in v.entries[i].0 && Kept(v.entries[i].1)
  {
    var n := |v.entries|;
    var node := JObject(EncodeEntries(v, n));
    assert Encode(v) == Some(node);
    FieldsAt(v, n, v.entries[0].0);
    if RoundTrip(v) == Meaning(v) {
      DictLost(v);
    }
    if forall i :: 0 <= i < n ==> 0 !in v.entries[i].0 && Kept(v.entries[i].1) {
      DictKept(v);
      assert Fields(v, n) != map[] && node.members != [];
    }
  }

  lemma {:induction false} KeptExactly(v: Lua)
    requires Shaped(v)
    ensures Kept(v) <==> v != List([]) && Carried(v)
    decreases v
  {
    match v
    case Bool(_) =>
    case Int(i) =>
      assert (i as real).Floor == i;
    case Float(_) =>
    case Str(s) => CutNothing(s);
    case Other =>
    case List(items) =>
      forall i | 0 <= i < |items| ensures Kept(items[i]) <==> items[i] != List([]) && Carried(items[i]) {
        KeptExactly(items[i]);
      }
      if items != [] {
        ListExactly(v);
      }
    case Dict(entries) =>
      forall i | 0 <= i < |entries| ensures Kept(entries[i].1) <==> entries[i].1 != List([]) && Carried(entries[i].1) {
        KeptExactly(entries[i].1);
      }
      DictExactly(v);
  }

  /**
   Encoding a table and decoding the result gives back the same table, array order and object keys included, exactly
   when everything in it is something JSON carries.
   */
  lemma RoundTripExactly(t: Lua)
    requires Shaped(t) && (t.List? || t.Dict?)
    ensures RoundTrip(t) == Meaning(t) <==> Carried(t)
  {
    KeptExactly(t);
  }

  // ---------------------------------------------------------------- what comes back in every case

  /** The last of the first `n` members with this name. */
  ghost predicate LastNamed(node: Node, n: nat, name: Bytes, i: nat)
    requires node.JObject? && n <= |node.members|
  {
    i < n && node.members[i].0 == name && forall j :: i < j < n ==> node.members[j].0 != name
  }

  lemma {:induction false} MembersRead(node: Node, n: nat)
    requires node.JObject? && n <= |node.members|
    ensures forall name :: name in DecodeMembers(node, n) <==> exists i: nat :: LastNamed(node, n, name, i)
    ensures forall name, i: nat :: LastNamed(node, n, name, i) ==>
              name in DecodeMembers(node, n) && DecodeMembers(node, n)[name] == Decode(node.members[i].1)
    decreases n
  {
    hide Decode;
    if n > 0 {
      var p := n - 1;
      MembersRead(node, p);
      var before, fields := DecodeMembers(node, p), DecodeMembers(node, n);
      var last := node.members[n - 1].0;
      assert LastNamed(node, n, last, n - 1);
      forall name, i: nat | LastNamed(node, n, name, i)
        ensures name in fields && fields[name] == Decode(node.members[i].1)
      {
        if i < n - 1 {
          assert LastNamed(node, p, name, i);
        }
      }
      forall name | name in fields ensures exists i: nat :: LastNamed(node, n, name, i) {
        if name != last {
          assert name in before;
          var i: nat :| LastNamed(node, p, name, i);
          assert LastNamed(node, n, name, i);
        }
      }
    }
  }

  ghost predicate IsInt32(i: int, x: real) {
    -0x8000_0000 <= i < 0x8000_0000 && i as real == x
  }

  /**
   How a text is read: an array as the list of its elements, however many; an object by the last member of each name,
   an empty one as an empty table; a number as an integer exactly when it is one of 32 bits.
   */
  lemma DecodeReads(node: Node)
    ensures match node
            case JBool(b) => Decode(node) == VBool(b)
            case JNumber(x) =>
              if exists i :: IsInt32(i, x)
              then Decode(node).VInt? && Decode(node).i as real == x else Decode(node) == VFloat(x)
            case JString(s) => Decode(node) == VStr(s)
            case JArray(items) =>
              && Decode(node).VList? && |Decode(node).items| == |items|
              && forall i :: 0 <= i < |items| ==> Decode(node).items[i] == Decode(items[i])
            case JObject(members) =>
              if members == [] then Decode(node) == VList([])
              else
                && Decode(node).VDict?
                && (forall name :: name in Decode(node).fields <==>
                      exists i: nat :: LastNamed(node, |members|, name, i))
                && forall name, i: nat :: LastNamed(node, |members|, name, i) ==>
                     name in Decode(node).fields && Decode(node).fields[name] == Decode(members[i].1)
  {
    match node
    case JNumber(x) =>
      if i :| IsInt32(i, x) {
        assert (i as real).Floor == i;
      }
      if FitsInt(x) {
        assert IsInt32(x.Floor, x);
      }
    case JObject(members) => MembersRead(node, |members|);
    case _ =>
  }

  /** What encoding and decoding a value gives, in one pass over the value; None where nothing is written. */
  function Back(v: Lua): Option<Value>
    decreases v, 1, 0
  {
    match v
    case Bool(b) => Some(VBool(b))
    case Int(i) => Some(if -0x8000_0000 <= i < 0x8000_0000 then VInt(i) else VFloat(i as real))
    case Float(x) => Some(if FitsInt(x) then VInt(x.Floor) else VFloat(x))
    case Str(s) => Some(VStr(CutNul(s)))
    case Other => None
    case List(items) => if items == [] then None else Some(VList(BackItems(v, |items|)))
    case Dict(entries) =>
      if entries == [] then None
      else
        var fields := BackFields(v, |entries|);
        Some(if fields == map[] then VList([]) else VDict(fields))
  }

  /** Elements that are not written leave no gap. */
  function BackItems(v: Lua, n: nat): seq<Value>
    requires v.List? && n <= |v.items|
    decreases v, 0, n
  {
    if n == 0 then []
    else
      var item := Back(v.items[n - 1]);
      BackItems(v, n - 1) + if item.Some? then [item.value] else []
  }

  /** Keys are cut at their first NUL, and of entries whose keys then agree the last one written stays. */
  function BackFields(v: Lua, n: nat): map<Bytes, Value>
    requires v.Dict? && n <= |v.entries|
    decreases v, 0, n
  {
    if n == 0 then map[]
    else
      var item := Back(v.entries[n - 1].1);
      if item.Some? then BackFields(v, n - 1)[CutNul(v.entries[n - 1].0) := item.value] else BackFields(v, n - 1)
  }

  lemma {:induction false} ItemsBack(v: Lua, n: nat)
    requires v.List? && n <= |v.items|
    ensures var node := JArray(EncodeItems(v, n));
            DecodeItems(node, |node.items|) == BackItems(v, n)
    decreases v, 0, n
  {
    if n > 0 {
      var a, b := JArray(EncodeItems(v, n - 1)), JArray(EncodeItems(v, n));
      ItemsBack(v, n - 1);
      BackExactly(v.items[n - 1]);
      hide Encode, Decode, Back;
      if Encode(v.items[n - 1]).Some? {
        assert forall i :: 0 <= i < |a.items| ==> b.items[i] == a.items[i];
        assert DecodeItems(b, |a.items|) == DecodeItems(a, |a.items|);
      } else {
        assert b.items == a.items;
      }
    }
  }

  lemma {:induction false} FieldsBack(v: Lua, n: nat)
    requires v.Dict? && n <= |v.entries|
    ensures Decoded(v, n) == BackFields(v, n)
    ensures BackFields(v, n) == map[] <==> EncodeEntries(v, n) == []
    decreases v, 0, n
  {
    if n > 0 {
      FieldsBack(v, n - 1);
      BackExactly(v.entries[n - 1].1);
      DecodedStep(v, n);
      hide Encode, Decode, Back, Decoded;
      if Encode(v.entries[n - 1].1).Some? {
        assert CutNul(v.entries[n - 1].0) in BackFields(v, n);
      }
    }
  }

  /** For every value, shaped or not: something is written exactly when Back says so, and decoding it gives that. */
  lemma {:induction false} BackExactly(v: Lua)
    ensures Encode(v).Some? <==> Back(v).Some?
    ensures Encode(v).Some? ==> Decode(Encode(v).value) == Back(v).value
    decreases v, 1, 0
  {
    match v
    case Int(i) =>
      assert (i as real).Floor == i;
    case List(items) => ItemsBack(v, |items|);
    case Dict(entries) => FieldsBack(v, |entries|);
    case _ =>
  }

  // ---------------------------------------------------------------- the two procedures

  method FetchCreateJson(v: Lua) returns (item: Option<Node>)
    requires v.List? || v.Dict?
    ensures item == Encode(v)
    decreases v, 0
  {
    if v.List? {
      var root: Option<seq<Node>> := None;
      for i := 0 to |v.items|
        invariant i == 0 ==> root == None
        invariant i > 0 ==> root == Some(EncodeItems(v, i))
      {
        if root.None? {
          root := Some([]);
        }
        var child := CreateItem(v.items[i]);
        if child.Some? {
          root := Some(root.value + [child.value]);
        }
        assert root.value == EncodeItems(v, i + 1);
      }
      return if root.Some? then Some(JArray(root.value)) else None;
    } else {
      var root: Option<seq<(Bytes, Node)>> := None;
      for i := 0 to |v.entries|
        invariant i == 0 ==> root == None
        invariant i > 0 ==> root == Some(EncodeEntries(v, i))
      {
        if root.None? {
          root := Some([]);
        }
        var child := CreateItem(v.entries[i].1);
        if child.Some? {
          root := Some(root.value + [(CutNul(v.entries[i].0), child.value)]);
        }
        assert root.value == EncodeEntries(v, i + 1);
      }
      return if root.Some? then Some(JObject(root.value)) else None;
    }
  }

  /** The switch over the type of a value inside a table. */
  method CreateItem(v: Lua) returns (item: Option<Node>)
    ensures item == Encode(v)
    decreases v, 1
  {
    match v
    case Bool(b) => item := Some(JBool(b));
    case Int(i) => item := Some(JNumber(i as real));
    case Float(x) => item := Some(JNumber(x));
    case Str(s) => item := Some(JString(CutNul(s)));
    case Other => item := None;
    case List(_) => item := FetchCreateJson(v);
    case Dict(_) => item := FetchCreateJson(v);
  }

  method FetchCreateLuaTable(node: Node) returns (v: Value)
    requires node.JArray? || node.JObject?
    ensures v == Decode(node)
    decreases node, 0
  {
    if node.JArray? {
      var items := [];
      for i := 0 to |node.items|
        invariant items == DecodeItems(node, i)
      {
        var item := DecodeItem(node.items[i]);
        items := items + [item];
      }
      return VList(items);
    } else {
      var fields := map[];
      for i := 0 to |node.members|
        invariant fields == DecodeMembers(node, i)
      {
        var item := DecodeItem(node.members[i].1);
        fields := fields[node.members[i].0 := item];
      }
      return if node.members == [] then VList([]) else VDict(fields);
    }
  }

  method DecodeItem(node: Node) returns (v: Value)
    ensures v == Decode(node)
    decreases node, 1
  {
    match node
    case JBool(b) => v := VBool(b);
    case JNumber(x) => v := DecodeNumber(x);
    case JString(s) => v := VStr(s);
    case JArray(_) => v := FetchCreateLuaTable(node);
    case JObject(_) => v := FetchCreateLuaTable(node);
  }
}
