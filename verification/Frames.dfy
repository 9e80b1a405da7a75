/**
 The two binary frames that cluster services exchange over TCP (services/clusterServ.lua).
 A request is "IzIIc<len>": payload length, NUL-terminated service name, caller id, session, payload.
 A response is "IIIIc<len>": payload length, caller id, session, ok flag, payload.
 "I" is Lua's native unsigned int, taken as four little-endian bytes without padding.
 */
module Frames {
  import opened Basics

  datatype Request = Request(name: Bytes, from: nat, session: nat, data: Bytes)

  datatype Response = Response(to: nat, session: nat, isOk: bool, data: Bytes)

  /** Result of string.unpack: the fields and the bytes not read, or a raised error. */
  datatype Parsed<+T> = Malformed | Parsed(value: T, rest: Bytes)

  // ---------------------------------------------------------------- fields

  function PackU32(n: nat): (b: Bytes)
    requires n < U32
    ensures |b| == 4
  {
    [n % 0x100, n / 0x100 % 0x100, n / 0x1_0000 % 0x100, n / 0x100_0000]
  }

  function FromLittleEndian(b0: int, b1: int, b2: int, b3: int): int {
    b0 + 0x100 * b1 + 0x1_0000 * b2 + 0x100_0000 * b3
  }

  function TakeU32(b: Bytes): Parsed<nat> {
    if |b| < 4 then Malformed else Parsed(FromLittleEndian(b[0], b[1], b[2], b[3]), b[4..])
  }

  /** A string ended by NUL; unfinished if there is none. */
  function TakeName(b: Bytes): Parsed<Bytes>
    decreases |b|
  {
    if b == [] then Malformed
    else if b[0] == 0 then Parsed([], b[1..])
    else match TakeName(b[1..])
      case Malformed => Malformed
      case Parsed(name, rest) => Parsed([b[0]] + name, rest)
  }

  function TakeBytes(b: Bytes, n: nat): Parsed<Bytes> {
    if |b| < n then Malformed else Parsed(b[..n], b[n..])
  }

  lemma U32RoundTrip(n: nat, tail: Bytes)
    requires n < U32
    ensures TakeU32(PackU32(n) + tail) == Parsed(n, tail)
  {
    var p := PackU32(n);
    assert (p + tail)[4..] == tail;
    assert n / 0x1_0000 == n / 0x100 / 0x100;
    assert n / 0x100_0000 == n / 0x1_0000 / 0x100;
  }

  lemma {:induction false} NameRoundTrip(name: Bytes, tail: Bytes)
    requires 0 !in name
    ensures TakeName(name + ([0] + tail)) == Parsed(name, tail)
    decreases |name|
  {
    var b := name + ([0] + tail);
    if name == [] {
      assert b == [0] + tail;
      assert b[1..] == tail;
    } else {
      assert b[1..] == name[1..] + ([0] + tail);
      NameRoundTrip(name[1..], tail);
      assert [name[0]] + name[1..] == name;
    }
  }

  lemma BytesRoundTrip(data: Bytes, tail: Bytes)
    ensures TakeBytes(data + tail, |data|) == Parsed(data, tail)
  {
    assert (data + tail)[..|data|] == data && (data + tail)[|data|..] == tail;
  }

  lemma Assoc(a: Bytes, b: Bytes, c: Bytes)
    ensures (a + b) + c == a + (b + c)
  {
  }

  // ---------------------------------------------------------------- frames

  /** What string.pack accepts: no NUL in a "z" string and every "I" below 2^32. */
  predicate Packable(r: Request) {
    0 !in r.name && r.from < U32 && r.session < U32 && |r.data| < U32
  }

  predicate PackableResponse(r: Response) {
    r.to < U32 && r.session < U32 && |r.data| < U32
  }

  /** string.pack of a request; None is the error it raises. */
  function EncodeRequest(r: Request): Option<Bytes> {
    if Packable(r) then
      Some(PackU32(|r.data|) + (r.name + ([0] + (PackU32(r.from) + (PackU32(r.session) + r.data)))))
    else None
  }

  /** The length is read first, then the rest with a format built from that length. */
  function DecodeRequest(msg: Bytes): Parsed<Request> {
    match TakeU32(msg)
    case Malformed => Malformed
    case Parsed(len, b1) =>
      match TakeName(b1)
      case Malformed => Malformed
      case Parsed(name, b2) =>
        match TakeU32(b2)
        case Malformed => Malformed
        case Parsed(from, b3) =>
          match TakeU32(b3)
          case Malformed => Malformed
          case Parsed(session, b4) =>
            match TakeBytes(b4, len)
            case Malformed => Malformed
            case Parsed(data, rest) => Parsed(Request(name, from, session, data), rest)
  }

  function Flag(isOk: bool): nat {
    if isOk then 1 else 0
  }

  function EncodeResponse(r: Response): Option<Bytes> {
    if PackableResponse(r) then
      Some(PackU32(|r.data|) + (PackU32(r.to) + (PackU32(r.session) + (PackU32(Flag(r.isOk)) + r.data))))
    else None
  }

  function DecodeResponse(msg: Bytes): Parsed<Response> {
    match TakeU32(msg)
    case Malformed => Malformed
    case Parsed(len, b1) =>
      match TakeU32(b1)
      case Malformed => Malformed
      case Parsed(to, b2) =>
        match TakeU32(b2)
        case Malformed => Malformed
        case Parsed(session, b3) =>
          match TakeU32(b3)
          case Malformed => Malformed
          case Parsed(ok, b4) =>
            match TakeBytes(b4, len)
            case Malformed => Malformed
            case Parsed(data, rest) => Parsed(Response(to, session, ok != 0, data), rest)
  }

  /** Decoding an encoded request gives back its fields and stops at its end, whatever bytes follow. */
  lemma RequestRoundTrip(r: Request, tail: Bytes)
    requires EncodeRequest(r).Some?
    ensures DecodeRequest(EncodeRequest(r).value + tail) == Parsed(r, tail)
  {
    var len, from, session := PackU32(|r.data|), PackU32(r.from), PackU32(r.session);
    var b4 := session + r.data;
    var b3 := from + b4;
    var b2 := [0] + b3;
    var b1 := r.name + b2;
    Assoc(len, b1, tail);
    Assoc(r.name, b2, tail);
    Assoc([0], b3, tail);
    Assoc(from, b4, tail);
    Assoc(session, r.data, tail);
    U32RoundTrip(|r.data|, b1 + tail);
    NameRoundTrip(r.name, b3 + tail);
    U32RoundTrip(r.from, b4 + tail);
    U32RoundTrip(r.session, r.data + tail);
    BytesRoundTrip(r.data, tail);
    hide TakeU32, TakeName, TakeBytes, PackU32;
  }

  lemma ResponseRoundTrip(r: Response, tail: Bytes)
    requires EncodeResponse(r).Some?
    ensures DecodeResponse(EncodeResponse(r).value + tail) == Parsed(r, tail)
  {
    var ok := Flag(r.isOk);
    hide TakeU32, TakeBytes, PackU32;
    var len, to, session, flag := PackU32(|r.data|), PackU32(r.to), PackU32(r.session), PackU32(ok);
    var b4 := flag + r.data;
    var b3 := session + b4;
    var b2 := to + b3;
    var msg := EncodeResponse(r).value + tail;
    assert TakeU32(msg) == Parsed(|r.data|, b2 + tail) by {
      Assoc(len, b2, tail);
      U32RoundTrip(|r.data|, b2 + tail);
    }
    assert TakeU32(b2 + tail) == Parsed(r.to, b3 + tail) by {
      Assoc(to, b3, tail);
      U32RoundTrip(r.to, b3 + tail);
    }
    assert TakeU32(b3 + tail) == Parsed(r.session, b4 + tail) by {
      Assoc(session, b4, tail);
      U32RoundTrip(r.session, b4 + tail);
    }
    assert TakeU32(b4 + tail) == Parsed(ok, r.data + tail) by {
      Assoc(flag, r.data, tail);
      U32RoundTrip(ok, r.data + tail);
    }
    BytesRoundTrip(r.data, tail);
  }

  /** A byte stream splits into frames in only one way. */
  lemma RequestsSelfDelimiting(r1: Request, tail1: Bytes, r2: Request, tail2: Bytes)
    requires EncodeRequest(r1).Some? && EncodeRequest(r2).Some?
    requires EncodeRequest(r1).value + tail1 == EncodeRequest(r2).value + tail2
    ensures r1 == r2 && tail1 == tail2
  {
    hide DecodeRequest;
    RequestRoundTrip(r1, tail1);
    RequestRoundTrip(r2, tail2);
  }

  lemma ResponsesSelfDelimiting(r1: Response, tail1: Bytes, r2: Response, tail2: Bytes)
    requires EncodeResponse(r1).Some? && EncodeResponse(r2).Some?
    requires EncodeResponse(r1).value + tail1 == EncodeResponse(r2).value + tail2
    ensures r1 == r2 && tail1 == tail2
  {
    hide DecodeResponse;
    ResponseRoundTrip(r1, tail1);
    ResponseRoundTrip(r2, tail2);
  }

  // ---------------------------------------------------------------- truncation

  lemma TakeU32More(b: Bytes, t: Bytes)
    requires TakeU32(b).Parsed?
    ensures TakeU32(b + t) == Parsed(TakeU32(b).value, TakeU32(b).rest + t)
  {
    assert (b + t)[4..] == b[4..] + t;
  }

  lemma {:induction false} TakeNameMore(b: Bytes, t: Bytes)
    requires TakeName(b).Parsed?
    ensures TakeName(b + t) == Parsed(TakeName(b).value, TakeName(b).rest + t)
    decreases |b|
  {
    assert (b + t)[1..] == b[1..] + t;
    if b[0] != 0 {
      TakeNameMore(b[1..], t);
    }
  }

  lemma TakeBytesMore(b: Bytes, t: Bytes, n: nat)
    requires TakeBytes(b, n).Parsed?
    ensures TakeBytes(b + t, n) == Parsed(TakeBytes(b, n).value, TakeBytes(b, n).rest + t)
  {
    assert (b + t)[..n] == b[..n] && (b + t)[n..] == b[n..] + t;
  }

  lemma DecodeRequestMore(b: Bytes, t: Bytes)
    requires DecodeRequest(b).Parsed?
    ensures DecodeRequest(b + t) == Parsed(DecodeRequest(b).value, DecodeRequest(b).rest + t)
  {
    TakeU32More(b, t);
    var b1 := TakeU32(b).rest;
    TakeNameMore(b1, t);
    var b2 := TakeName(b1).rest;
    TakeU32More(b2, t);
    var b3 := TakeU32(b2).rest;
    TakeU32More(b3, t);
    TakeBytesMore(TakeU32(b3).rest, t, TakeU32(b).value);
    hide TakeU32, TakeName, TakeBytes;
  }

  /** A request cut short is refused: no proper prefix of a frame decodes to anything. */
  lemma TruncatedRequestRefused(r: Request, k: nat)
    requires EncodeRequest(r).Some? && k < |EncodeRequest(r).value|
    ensures DecodeRequest(EncodeRequest(r).value[..k]).Malformed?
  {
    hide DecodeRequest;
    var e := EncodeRequest(r).value;
    if DecodeRequest(e[..k]).Parsed? {
      DecodeRequestMore(e[..k], e[k..]);
      assert e[..k] + e[k..] == e == e + [];
      RequestRoundTrip(r, []);
      assert false;
    }
  }

  // ---------------------------------------------------------------- what decodes at all

  /** The four bytes of a number, the lowest first. */
  lemma LittleEndian(n: nat)
    requires n < U32
    ensures var b0: int, b1: int, b2: int, b3: int := PackU32(n)[0], PackU32(n)[1], PackU32(n)[2], PackU32(n)[3];
            b0 + 0x100 * b1 + 0x1_0000 * b2 + 0x100_0000 * b3 == n
  {
    assert n / 0x1_0000 == n / 0x100 / 0x100;
    assert n / 0x100_0000 == n / 0x1_0000 / 0x100;
  }

  lemma U32Read(b: Bytes)
    requires TakeU32(b).Parsed?
    ensures TakeU32(b).value < U32 && b == PackU32(TakeU32(b).value) + TakeU32(b).rest
  {
    var n := TakeU32(b).value;
    var b1: int, b2: int, b3: int := b[1], b[2], b[3];
    assert n / 0x100 == b1 + 0x100 * b2 + 0x1_0000 * b3;
    assert n / 0x1_0000 == b2 + 0x100 * b3;
    assert PackU32(n) == b[..4];
    assert b == b[..4] + b[4..];
  }

  lemma {:induction false} NameRead(b: Bytes)
    requires TakeName(b).Parsed?
    ensures 0 !in TakeName(b).value && b == TakeName(b).value + ([0] + TakeName(b).rest)
    decreases |b|
  {
    assert b == [b[0]] + b[1..];
    if b[0] != 0 {
      NameRead(b[1..]);
    } else {
      assert b == [] + ([0] + b[1..]);
    }
  }

  lemma BytesRead(b: Bytes, n: nat)
    requires TakeBytes(b, n).Parsed?
    ensures |TakeBytes(b, n).value| == n && b == TakeBytes(b, n).value + TakeBytes(b, n).rest
  {
  }

  /** Whatever bytes come in: they decode to a request exactly when they begin with its frame. */
  lemma RequestExactly(msg: Bytes, r: Request, rest: Bytes)
    ensures DecodeRequest(msg) == Parsed(r, rest) <==>
            EncodeRequest(r).Some? && msg == EncodeRequest(r).value + rest
  {
    if DecodeRequest(msg) == Parsed(r, rest) {
      RequestFrame(msg, r, rest);
    }
    if EncodeRequest(r).Some? && msg == EncodeRequest(r).value + rest {
      hide EncodeRequest, DecodeRequest;
      RequestRoundTrip(r, rest);
    }
  }

  lemma RequestFrame(msg: Bytes, r: Request, rest: Bytes)
    requires DecodeRequest(msg) == Parsed(r, rest)
    ensures EncodeRequest(r).Some? && msg == EncodeRequest(r).value + rest
  {
    hide TakeU32, TakeName, TakeBytes, PackU32;
    var b1 := TakeU32(msg).rest;
    var b2 := TakeName(b1).rest;
    var b3 := TakeU32(b2).rest;
    var b4 := TakeU32(b3).rest;
    U32Read(msg);
    NameRead(b1);
    U32Read(b2);
    U32Read(b3);
    BytesRead(b4, TakeU32(msg).value);
    var len, from, session := PackU32(|r.data|), PackU32(r.from), PackU32(r.session);
    Assoc(session, r.data, rest);
    Assoc(from, session + r.data, rest);
    Assoc([0], from + (session + r.data), rest);
    Assoc(r.name, [0] + (from + (session + r.data)), rest);
    Assoc(len, r.name + ([0] + (from + (session + r.data))), rest);
  }

  /** A response with any number for its flag, of which a sender uses 0 and 1. */
  function ResponseFrame(r: Response, flag: nat): Bytes
    requires PackableResponse(r) && flag < U32
  {
    PackU32(|r.data|) + (PackU32(r.to) + (PackU32(r.session) + (PackU32(flag) + r.data)))
  }

  ghost predicate IsResponse(msg: Bytes, r: Response, flag: nat, rest: Bytes) {
    PackableResponse(r) && flag < U32 && (r.isOk <==> flag != 0) && msg == ResponseFrame(r, flag) + rest
  }

  /** And to a response exactly when they begin with its frame, any flag but 0 meaning yes. */
  lemma ResponseExactly(msg: Bytes, r: Response, rest: Bytes)
    ensures DecodeResponse(msg) == Parsed(r, rest) <==> exists flag: nat :: IsResponse(msg, r, flag, rest)
  {
    if DecodeResponse(msg) == Parsed(r, rest) {
      var flag := FlagOf(msg, r, rest);
    }
    if flag: nat :| IsResponse(msg, r, flag, rest) {
      ResponseRead(r, flag, rest);
    }
  }

  lemma FlagOf(msg: Bytes, r: Response, rest: Bytes) returns (flag: nat)
    requires DecodeResponse(msg) == Parsed(r, rest)
    ensures IsResponse(msg, r, flag, rest)
  {
    hide TakeU32, TakeBytes, PackU32;
    var b1 := TakeU32(msg).rest;
    var b2 := TakeU32(b1).rest;
    var b3 := TakeU32(b2).rest;
    var b4 := TakeU32(b3).rest;
    flag := TakeU32(b3).value;
    U32Read(msg);
    U32Read(b1);
    U32Read(b2);
    U32Read(b3);
    BytesRead(b4, TakeU32(msg).value);
    var len, to, session, ok := PackU32(|r.data|), PackU32(r.to), PackU32(r.session), PackU32(flag);
    Assoc(ok, r.data, rest);
    Assoc(session, ok + r.data, rest);
    Assoc(to, session + (ok + r.data), rest);
    Assoc(len, to + (session + (ok + r.data)), rest);
  }

  lemma ResponseRead(r: Response, flag: nat, tail: Bytes)
    requires PackableResponse(r) && flag < U32 && (r.isOk <==> flag != 0)
    ensures DecodeResponse(ResponseFrame(r, flag) + tail) == Parsed(r, tail)
  {
    hide TakeU32, TakeBytes, PackU32;
    var len, to, session, ok := PackU32(|r.data|), PackU32(r.to), PackU32(r.session), PackU32(flag);
    var b4 := ok + r.data;
    var b3 := session + b4;
    var b2 := to + b3;
    Assoc(len, b2, tail);
    Assoc(to, b3, tail);
    Assoc(session, b4, tail);
    Assoc(ok, r.data, tail);
    U32RoundTrip(|r.data|, b2 + tail);
    U32RoundTrip(r.to, b3 + tail);
    U32RoundTrip(r.session, b4 + tail);
    U32RoundTrip(flag, r.data + tail);
    BytesRoundTrip(r.data, tail);
  }
}
