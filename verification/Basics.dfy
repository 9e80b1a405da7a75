/** Types shared by all components. */
module Basics {
  /** A value that may be absent: Lua's nil, a C++ null pointer, a map lookup that misses. */
  datatype Option<+T> = None | Some(value: T)

  type Byte = b: int | 0 <= b < 256

  /** A Lua string or a C++ byte buffer: any bytes, NUL included. */
  type Bytes = seq<Byte>

  /** The number of values of an unsigned 32-bit field. */
  const U32 := 0x1_0000_0000

  /** No element occurs twice. */
  ghost predicate Distinct<T>(s: seq<T>) {
    forall i, j :: 0 <= i < j < |s| ==> s[i] != s[j]
  }

  /** The elements of a sequence. */
  function Elems<T>(s: seq<T>): set<T> {
    set x | x in s
  }

  /** What is left of a byte string where C code stops at the first NUL. */
  function CutNul(s: Bytes): Bytes {
    if s == [] || s[0] == 0 then [] else [s[0]] + CutNul(s[1..])
  }

  lemma {:induction false} CutTwice(s: Bytes)
    ensures CutNul(CutNul(s)) == CutNul(s)
    decreases |s|
  {
    if s != [] && s[0] != 0 {
      CutTwice(s[1..]);
      assert CutNul(s)[1..] == CutNul(s[1..]);
    }
  }

  lemma {:induction false} CutNothing(s: Bytes)
    ensures CutNul(s) == s <==> 0 !in s
    decreases |s|
  {
    if s != [] {
      CutNothing(s[1..]);
      assert s == [s[0]] + s[1..];
      if s[0] != 0 && CutNul(s) == s {
        assert CutNul(s[1..]) == CutNul(s)[1..];
      }
    }
  }
}
