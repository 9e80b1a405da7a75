/**
 The text of HTTP requests and responses (lualib/net/http.lua, api.split of lualib/api.lua): what the parser reads and
 what the formatter writes, as functions; the two Lua functions with their loops; and the messages of RFC 9112 they are
 meant for.
 */
module HttpText {
  import opened Basics

  // ---------------------------------------------------------------- searching

  /** The first place of the character, or of the two characters side by side. */
  function Find(s: string, c: char): Option<nat> {
    if s == [] then None
    else if s[0] == c then Some(0)
    else match Find(s[1..], c)
      case None => None
      case Some(i) => Some(i + 1)
  }

  function Find2(s: string, a: char, b: char): Option<nat> {
    if |s| < 2 then None
    else if s[0] == a && s[1] == b then Some(0)
    else match Find2(s[1..], a, b)
      case None => None
      case Some(i) => Some(i + 1)
  }

  function FindCrlf(s: string): Option<nat> {
    Find2(s, '\r', '\n')
  }

  ghost predicate Pairless(s: string, a: char, b: char) {
    forall i :: 0 <= i < |s| - 1 ==> !(s[i] == a && s[i + 1] == b)
  }

  ghost predicate CrlfFree(s: string) {
    Pairless(s, '\r', '\n')
  }

  lemma {:induction false} FindBounds(s: string, c: char)
    ensures Find(s, c).None? <==> c !in s
    ensures Find(s, c).Some? ==> Find(s, c).value < |s| && s[Find(s, c).value] == c && c !in s[..Find(s, c).value]
    decreases |s|
  {
    if s != [] && s[0] != c {
      FindBounds(s[1..], c);
      assert s == [s[0]] + s[1..];
      if Find(s, c).Some? {
        var i := Find(s[1..], c).value;
        assert s[..i + 1] == [s[0]] + s[1..][..i];
      }
    }
  }

  lemma {:induction false} Find2Bounds(s: string, a: char, b: char)
    ensures Find2(s, a, b).None? <==> Pairless(s, a, b)
    ensures Find2(s, a, b).Some? ==>
              var i := Find2(s, a, b).value; i + 1 < |s| && s[i] == a && s[i + 1] == b && Pairless(s[..i + 1], a, b)
    decreases |s|
  {
    if |s| >= 2 && !(s[0] == a && s[1] == b) {
      Find2Bounds(s[1..], a, b);
      if Find2(s, a, b).None? {
        forall i | 0 <= i < |s| - 1 ensures !(s[i] == a && s[i + 1] == b) {
          if i > 0 {
            assert !(s[1..][i - 1] == a && s[1..][i] == b);
          }
        }
      } else {
        var j := Find2(s[1..], a, b).value;
        var t := s[..j + 2];
        assert s[1..][j] == a && s[1..][j + 1] == b;
        forall i | 0 <= i < |t| - 1 ensures !(t[i] == a && t[i + 1] == b) {
          if i > 0 {
            assert !(s[1..][..j + 1][i - 1] == a && s[1..][..j + 1][i] == b);
          }
        }
      }
    }
  }

  /** The character right after a stretch without it is the first. */
  lemma {:induction false} FindAfter(x: string, c: char, rest: string)
    requires c !in x
    ensures Find(x + [c] + rest, c) == Some(|x|)
    decreases |x|
  {
    if x == [] {
      assert x + [c] + rest == [c] + rest;
    } else {
      FindAfter(x[1..], c, rest);
      assert (x + [c] + rest)[1..] == x[1..] + [c] + rest;
    }
  }

  lemma {:induction false} CrlfAfter(x: string, rest: string)
    requires CrlfFree(x)
    ensures FindCrlf(x + "\r\n" + rest) == Some(|x|)
    decreases |x|
  {
    var s := x + "\r\n" + rest;
    if x == [] {
      assert s[0] == '\r' && s[1] == '\n';
    } else {
      assert s[1..] == x[1..] + "\r\n" + rest;
      assert CrlfFree(x[1..]) by {
        forall i | 0 <= i < |x[1..]| - 1 ensures !(x[1..][i] == '\r' && x[1..][i + 1] == '\n') {
          assert !(x[i + 1] == '\r' && x[i + 2] == '\n');
        }
      }
      CrlfAfter(x[1..], rest);
      if |x| > 1 {
        assert !(x[0] == '\r' && x[1] == '\n');
      }
    }
  }

  // ---------------------------------------------------------------- lines

  /** The lines as the parser cuts them: all but the last keep their carriage return. */
  function Lines(s: string): seq<string>
    decreases |s|
  {
    Find2Bounds(s, '\r', '\n');
    match FindCrlf(s)
    case None => [s]
    case Some(i) => [s[..i + 1]] + Lines(s[i + 2..])
  }

  function Join(parts: seq<string>, sep: string): string {
    if parts == [] then [] else if |parts| == 1 then parts[0] else parts[0] + sep + Join(parts[1..], sep)
  }

  /** Nothing is lost: for any input at all, the lines joined with LF give back the message. */
  lemma {:induction false} LinesJoin(s: string)
    ensures Lines(s) != [] && Join(Lines(s), "\n") == s
    decreases |s|
  {
    Find2Bounds(s, '\r', '\n');
    if FindCrlf(s).Some? {
      var i := FindCrlf(s).value;
      var rest := Lines(s[i + 2..]);
      LinesJoin(s[i + 2..]);
      assert Lines(s)[1..] == rest;
      assert s == s[..i + 1] + "\n" + s[i + 2..];
    }
  }

  lemma LinesFirst(x: string, rest: string)
    requires CrlfFree(x)
    ensures Lines(x + "\r\n" + rest) == [x + "\r"] + Lines(rest)
  {
    var s := x + "\r\n" + rest;
    CrlfAfter(x, rest);
    assert s[..|x| + 1] == x + "\r" && s[|x| + 2..] == rest;
  }

  /** What table.concat makes of the lines of a body. */
  function BodyOf(lines: seq<string>): string {
    Join(lines, "\r\n")
  }

  /** The lines of a body keep their CR and are joined with CRLF, so it survives exactly when it has no CRLF. */
  lemma {:induction false} BodyKept(b: string)
    ensures |BodyOf(Lines(b))| >= |b|
    ensures BodyOf(Lines(b)) == b <==> CrlfFree(b)
    decreases |b|
  {
    Find2Bounds(b, '\r', '\n');
    if FindCrlf(b).Some? {
      var i := FindCrlf(b).value;
      LinesJoin(b[i + 2..]);
      BodyKept(b[i + 2..]);
      assert Lines(b)[1..] == Lines(b[i + 2..]);
      assert |BodyOf(Lines(b))| > |b|;
    }
  }

  // ---------------------------------------------------------------- api.split

  /** How many characters come before the first separator. */
  function Run(s: string, sep: char): (n: nat)
    ensures n <= |s| && sep !in s[..n] && (n < |s| ==> s[n] == sep)
  {
    if s == [] || s[0] == sep then 0
    else
      var n := Run(s[1..], sep);
      assert s[..n + 1] == [s[0]] + s[1..][..n];
      n + 1
  }

  /** The longest stretches without the separator, none of them empty. */
  function Split(s: string, sep: char): seq<string>
    decreases |s|
  {
    if s == [] then []
    else if s[0] == sep then Split(s[1..], sep)
    else
      var n := Run(s, sep);
      [s[..n]] + Split(s[n..], sep)
  }

  lemma {:induction false} RunAll(x: string, sep: char, rest: string)
    requires sep !in x && (rest == [] || rest[0] == sep)
    ensures Run(x + rest, sep) == |x|
    decreases |x|
  {
    if x == [] {
      assert x + rest == rest;
    } else {
      assert (x + rest)[1..] == x[1..] + rest;
      RunAll(x[1..], sep, rest);
    }
  }

  lemma SplitFirst(x: string, sep: char, rest: string)
    requires sep !in x && x != []
    ensures Split(x + [sep] + rest, sep) == [x] + Split(rest, sep)
    ensures Split(x, sep) == [x]
  {
    var s := x + [sep] + rest;
    assert s == x + ([sep] + rest);
    RunAll(x, sep, [sep] + rest);
    assert s[|x|..] == [sep] + rest && ([sep] + rest)[1..] == rest && s[..|x|] == x;
    RunAll(x, sep, []);
    assert x + [] == x && x[|x|..] == [];
  }

  /** Splitting undoes joining. */
  lemma {:induction false} SplitJoin(parts: seq<string>, sep: char)
    requires forall i :: 0 <= i < |parts| ==> parts[i] != [] && sep !in parts[i]
    ensures Split(Join(parts, [sep]), sep) == parts
    decreases |parts|
  {
    if |parts| == 1 {
      SplitFirst(parts[0], sep, []);
    } else if |parts| > 1 {
      SplitFirst(parts[0], sep, Join(parts[1..], [sep]));
      SplitJoin(parts[1..], sep);
      assert parts == [parts[0]] + parts[1..];
    }
  }

  // ---------------------------------------------------------------- parseHttpRequest

  datatype Request = Request(
    verb: string, uri: string, version: Option<string>, query: map<string, string>, headers: map<string, string>,
    body: string)

  type Table = map<string, string>

  /** One argument of the query goes into the table if it has an equals sign; the first one divides it. */
  function AddArg(query: Table, arg: string): Table {
    FindBounds(arg, '=');
    match Find(arg, '=')
    case None => query
    case Some(i) => query[arg[..i] := arg[i + 1..]]
  }

  function AddArgs(query: Table, args: seq<string>): Table
    decreases |args|
  {
    if args == [] then query else AddArgs(AddArg(query, args[0]), args[1..])
  }

  /** The arguments are not looked at when the first of them equals the path. */
  function Query(path: string, args: seq<string>): Table {
    if args != [] && args[0] == path then map[] else AddArgs(map[], args)
  }

  /** The value keeps the separator and the carriage return. */
  function AddHeader(headers: Table, line: string): Table {
    Find2Bounds(line, ':', ' ');
    match Find2(line, ':', ' ')
    case None => headers
    case Some(i) => headers[line[..i] := line[i..]]
  }

  /** The lines after the first: headers up to an empty line, then the body. */
  function Rest(headers: Table, lines: seq<string>): (Table, seq<string>)
    decreases |lines|
  {
    if lines == [] then (headers, [])
    else if lines[0] == "\r" then (headers, lines[1..])
    else Rest(AddHeader(headers, lines[0]), lines[1..])
  }

  /** None where the Lua code raises an error: fewer than two lines, or no second word on the first. */
  function Parse(msg: string): Option<Request> {
    var lines := Lines(msg);
    LinesJoin(msg);
    var words := Split(lines[0], ' ');
    if |lines| < 2 || |words| < 2 then None
    else
      var (headers, body) := Rest(map[], lines[1..]);
      var version := if |words| > 2 then Some(words[2]) else None;
      FindBounds(words[1], '?');
      match Find(words[1], '?')
      case None => Some(Request(words[0], words[1], version, map[], headers, BodyOf(body)))
      case Some(i) =>
        var path, args := words[1][..i], Split(words[1][i + 1..], '&');
        Some(Request(words[0], path, version, Query(path, args), headers, BodyOf(body)))
  }

  /** The parser fails exactly on a message without CRLF, or when the first line has no second word. */
  lemma ParseFails(msg: string)
    ensures match FindCrlf(msg)
            case None => CrlfFree(msg) && Parse(msg).None?
            case Some(i) => i < |msg| && (Parse(msg).None? <==> |Split(msg[..i + 1], ' ')| < 2)
  {
    Find2Bounds(msg, '\r', '\n');
    LinesJoin(msg);
    if FindCrlf(msg).Some? {
      LinesJoin(msg[FindCrlf(msg).value + 2..]);
    }
    hide Split, Rest;
  }

  // ---------------------------------------------------------------- requests as a client prints them

  datatype Pair = Pair(key: string, value: string)

  function PairText(p: Pair): string {
    p.key + "=" + p.value
  }

  function PairTexts(pairs: seq<Pair>): (r: seq<string>)
    ensures |r| == |pairs| && forall i :: 0 <= i < |pairs| ==> r[i] == PairText(pairs[i])
  {
    if pairs == [] then [] else [PairText(pairs[0])] + PairTexts(pairs[1..])
  }

  /** The request target: a path, and a query if there are pairs. */
  function Target(path: string, pairs: seq<Pair>): string {
    if pairs == [] then path else path + "?" + Join(PairTexts(pairs), "&")
  }

  function HeaderText(headers: seq<string>): string {
    if headers == [] then [] else headers[0] + "\r\n" + HeaderText(headers[1..])
  }

  function RequestText(verb: string, path: string, pairs: seq<Pair>, version: string, headers: seq<string>,
        body: string): string {
    (verb + " " + Target(path, pairs) + " " + version) + "\r\n" + (HeaderText(headers) + "\r\n" + body)
  }

  /** The last pair with a key wins. */
  function LastWins(query: Table, pairs: seq<Pair>): Table
    decreases |pairs|
  {
    if pairs == [] then query else LastWins(query[pairs[0].key := pairs[0].value], pairs[1..])
  }

  ghost predicate Word(s: string) {
    s != [] && ' ' !in s && '\r' !in s && '\n' !in s
  }

  ghost predicate PathOk(path: string) {
    Word(path) && '?' !in path
  }

  ghost predicate PairsOk(pairs: seq<Pair>) {
    forall i :: 0 <= i < |pairs| ==> '=' !in pairs[i].key && Word(PairText(pairs[i])) && '&' !in PairText(pairs[i])
  }

  ghost predicate HeadersOk(headers: seq<string>) {
    forall i :: 0 <= i < |headers| ==> headers[i] != [] && CrlfFree(headers[i])
  }

  function AddHeaders(table: Table, headers: seq<string>): Table
    decreases |headers|
  {
    if headers == [] then table else AddHeaders(AddHeader(table, headers[0] + "\r"), headers[1..])
  }

  lemma {:induction false} ArgsWin(query: Table, pairs: seq<Pair>)
    requires PairsOk(pairs)
    ensures AddArgs(query, PairTexts(pairs)) == LastWins(query, pairs)
    decreases |pairs|
  {
    if pairs != [] {
      var p := pairs[0];
      FindAfter(p.key, '=', p.value);
      assert PairText(p) == p.key + ['='] + p.value;
      assert PairText(p)[..|p.key|] == p.key && PairText(p)[|p.key| + 1..] == p.value;
      assert PairTexts(pairs)[1..] == PairTexts(pairs[1..]);
      ArgsWin(query[p.key := p.value], pairs[1..]);
    }
  }

  lemma {:induction false} WordJoin(parts: seq<string>, sep: char)
    requires forall i :: 0 <= i < |parts| ==> Word(parts[i])
    requires sep != ' ' && sep != '\r' && sep != '\n'
    ensures parts != [] ==> Word(Join(parts, [sep]))
    decreases |parts|
  {
    if |parts| > 1 {
      WordJoin(parts[1..], sep);
    }
  }

  lemma TargetWord(path: string, pairs: seq<Pair>)
    requires PathOk(path) && PairsOk(pairs)
    ensures Word(Target(path, pairs))
  {
    WordJoin(PairTexts(pairs), '&');
  }

  lemma {:induction false} RestHeaders(table: Table, headers: seq<string>, body: string)
    requires HeadersOk(headers)
    ensures Rest(table, Lines(HeaderText(headers) + "\r\n" + body)) == (AddHeaders(table, headers), Lines(body))
    decreases |headers|
  {
    var text := HeaderText(headers) + "\r\n" + body;
    if headers == [] {
      LinesFirst([], body);
      assert text == [] + "\r\n" + body && [] + "\r" == "\r";
      assert Lines(text)[1..] == Lines(body);
    } else {
      var more := HeaderText(headers[1..]) + "\r\n" + body;
      assert text == headers[0] + "\r\n" + more;
      LinesFirst(headers[0], more);
      assert Lines(text)[1..] == Lines(more);
      assert (headers[0] + "\r")[0] == headers[0][0] && |headers[0] + "\r"| > 1;
      RestHeaders(AddHeader(table, headers[0] + "\r"), headers[1..], body);
    }
  }

  /** The words of the first line, whose version keeps the carriage return. */
  lemma FirstLine(verb: string, target: string, version: string)
    requires Word(verb) && Word(target) && Word(version)
    ensures CrlfFree(verb + " " + target + " " + version)
    ensures Split(verb + " " + target + " " + version + "\r", ' ') == [verb, target, version + "\r"]
  {
    var line := verb + " " + target + " " + version;
    forall i | 0 <= i < |line| - 1 ensures !(line[i] == '\r' && line[i + 1] == '\n') {
      assert line[i] != '\r' by {
        NoCr(verb, target, version, i);
      }
    }
    var tail := version + "\r";
    assert line + "\r" == verb + [' '] + (target + [' '] + tail);
    SplitFirst(verb, ' ', target + [' '] + tail);
    SplitFirst(target, ' ', tail);
    SplitFirst(tail, ' ', []);
  }

  lemma NoCr(verb: string, target: string, version: string, i: nat)
    requires Word(verb) && Word(target) && Word(version) && i < |verb + " " + target + " " + version|
    ensures (verb + " " + target + " " + version)[i] != '\r'
  {
    assert '\r' !in verb + " " && '\r' !in verb + " " + target && '\r' !in verb + " " + target + " ";
    assert '\r' !in verb + " " + target + " " + version;
  }

  /** What parsing a printed request gives, for any query and any body. */
  lemma ParsePrinted(verb: string, path: string, pairs: seq<Pair>, version: string, headers: seq<string>, body: string)
    requires Word(verb) && PathOk(path) && PairsOk(pairs) && Word(version) && HeadersOk(headers)
    ensures Parse(RequestText(verb, path, pairs, version, headers, body)) == Some(Request(
      verb, path, Some(version + "\r"), if pairs != []
          && PairText(pairs[0]) == path then map[] else LastWins(map[], pairs),
      AddHeaders(map[], headers), BodyOf(Lines(body))))
  {
    var target := Target(path, pairs);
    var line := verb + " " + target + " " + version;
    var rest := HeaderText(headers) + "\r\n" + body;
    TargetWord(path, pairs);
    FirstLine(verb, target, version);
    hide Word, Split, CrlfFree, Lines, Rest, Find, LastWins, PairsOk, HeadersOk, AddArgs, PathOk, AddHeaders;
    LinesFirst(line, rest);
    LinesJoin(rest);
    assert Lines(line + "\r\n" + rest)[1..] == Lines(rest);
    RestHeaders(map[], headers, body);
    TargetQuery(path, pairs);
  }

  /** The path and the arguments found again in the request target. */
  lemma TargetQuery(path: string, pairs: seq<Pair>)
    requires PathOk(path) && PairsOk(pairs)
    ensures pairs == [] ==> Target(path, pairs) == path && Find(path, '?').None? && LastWins(map[], pairs) == map[]
    ensures pairs != [] ==>
      var target := Target(path, pairs);
      && Find(target, '?') == Some(|path|) && |path| < |target| && target[..|path|] == path
      && Split(target[|path| + 1..], '&') == PairTexts(pairs)
      && Query(path, PairTexts(pairs)) == if PairText(pairs[0]) == path then map[] else LastWins(map[], pairs)
  {
    FindBounds(path, '?');
    if pairs != [] {
      var args := Join(PairTexts(pairs), "&");
      FindAfter(path, '?', args);
      assert Target(path, pairs) == path + ['?'] + args;
      SplitJoin(PairTexts(pairs), '&');
      ArgsWin(map[], pairs);
    }
  }

  lemma {:induction false} WinsKeeps(query: Table, pairs: seq<Pair>)
    ensures query.Keys <= LastWins(query, pairs).Keys
    decreases |pairs|
  {
    if pairs != [] {
      WinsKeeps(query[pairs[0].key := pairs[0].value], pairs[1..]);
    }
  }

  lemma WinsSome(pairs: seq<Pair>)
    ensures LastWins(map[], pairs) == map[] <==> pairs == []
  {
    if pairs != [] {
      var first := map[pairs[0].key := pairs[0].value];
      WinsKeeps(first, pairs[1..]);
      assert map[][pairs[0].key := pairs[0].value] == first && pairs[0].key in first;
    }
  }

  /**
   Parsing inverts printing, for every request with a method, a path, query pairs, header lines and a body: the method
   and path come back; the query comes back exactly unless its first pair is written like the path; the body comes back
   exactly when it has no CRLF.
   */
  lemma ParseInvertsPrint(verb: string, path: string, pairs: seq<Pair>, version: string, headers: seq<string>,
        body: string)
    requires Word(verb) && PathOk(path) && PairsOk(pairs) && Word(version) && HeadersOk(headers)
    ensures var r := Parse(RequestText(verb, path, pairs, version, headers, body));
            && r.Some? && r.value.verb == verb && r.value.uri == path
            && (r.value.query == LastWins(map[], pairs) <==> pairs == [] || PairText(pairs[0]) != path)
            && (r.value.body == body <==> CrlfFree(body))
  {
    hide Parse, Lines, CrlfFree, Word, PathOk, PairsOk, HeadersOk, RequestText, LastWins, AddHeaders, BodyOf, PairText;
    ParsePrinted(verb, path, pairs, version, headers, body);
    BodyKept(body);
    WinsSome(pairs);
  }

  /** Pair `i` is the last one with the key. */
  ghost predicate LastPair(pairs: seq<Pair>, key: string, i: nat) {
    i < |pairs| && pairs[i].key == key && forall j :: i < j < |pairs| ==> pairs[j].key != key
  }

  /** A table filled by the rule that the last pair wins has the keys of the pairs, each with its last value. */
  lemma {:induction false} WinsLast(table: Table, pairs: seq<Pair>, key: string)
    ensures key in LastWins(table, pairs) <==> key in table || exists i: nat :: LastPair(pairs, key, i)
    ensures forall i: nat :: LastPair(pairs, key, i) ==>
              key in LastWins(table, pairs) && LastWins(table, pairs)[key] == pairs[i].value
    ensures key in LastWins(table, pairs) && (forall i: nat :: !LastPair(pairs, key, i)) ==>
              LastWins(table, pairs)[key] == table[key]
    decreases |pairs|
  {
    if pairs != [] {
      var rest := pairs[1..];
      WinsLast(table[pairs[0].key := pairs[0].value], rest, key);
      hide LastWins;
      forall i: nat | LastPair(rest, key, i) ensures LastPair(pairs, key, i + 1) {
      }
      forall i: nat | LastPair(pairs, key, i)
        ensures if i > 0 then LastPair(rest, key, i - 1) else pairs[0].key == key
      {
        if i > 0 {
          assert rest[i - 1] == pairs[i];
        }
      }
      if pairs[0].key == key && (forall i: nat :: !LastPair(rest, key, i)) {
        NoLast(rest, key);
        assert LastPair(pairs, key, 0);
      }
      if i: nat :| LastPair(pairs, key, i) {
        forall j: nat | LastPair(rest, key, j) ensures i == j + 1 {
          assert rest[j] == pairs[j + 1];
        }
      }
    }
  }

  lemma {:induction false} NoLast(pairs: seq<Pair>, key: string)
    requires forall i: nat :: !LastPair(pairs, key, i)
    ensures forall i :: 0 <= i < |pairs| ==> pairs[i].key != key
    decreases |pairs|
  {
    if pairs != [] {
      var n := |pairs| - 1;
      assert !LastPair(pairs, key, n);
      forall i: nat | LastPair(pairs[..n], key, i) ensures LastPair(pairs, key, i) {
      }
      NoLast(pairs[..n], key);
    }
  }

  /** Header lines as a client prints them. */
  function Printed(fields: seq<Pair>): (r: seq<string>)
    ensures |r| == |fields| && forall i :: 0 <= i < |fields| ==> r[i] == fields[i].key + ": " + fields[i].value
  {
    if fields == [] then [] else [fields[0].key + ": " + fields[0].value] + Printed(fields[1..])
  }

  /** The values as the table has them: with the separator in front and the carriage return behind. */
  function Framed(fields: seq<Pair>): (r: seq<Pair>)
    ensures |r| == |fields|
    ensures forall i :: 0 <= i < |fields| ==> r[i] == Pair(fields[i].key, ": " + fields[i].value + "\r")
  {
    seq(|fields|, i requires 0 <= i < |fields| => Pair(fields[i].key, ": " + fields[i].value + "\r"))
  }

  /** The first of two characters side by side, right after a stretch where they are not. */
  lemma {:induction false} Find2After(x: string, a: char, b: char, rest: string)
    requires Pairless(x, a, b) && a != b
    ensures Find2(x + [a, b] + rest, a, b) == Some(|x|)
    decreases |x|
  {
    var s := x + [a, b] + rest;
    if x != [] {
      assert s[1..] == x[1..] + [a, b] + rest;
      forall i | 0 <= i < |x[1..]| - 1 ensures !(x[1..][i] == a && x[1..][i + 1] == b) {
        assert !(x[i + 1] == a && x[i + 2] == b);
      }
      Find2After(x[1..], a, b, rest);
      if |x| > 1 {
        assert !(x[0] == a && x[1] == b);
      }
    }
  }

  ghost predicate FieldsOk(fields: seq<Pair>) {
    forall i :: 0 <= i < |fields| ==>
      Pairless(fields[i].key, ':', ' ') && CrlfFree(fields[i].key + ": " + fields[i].value)
  }

  lemma {:induction false} HeadersRead(table: Table, fields: seq<Pair>)
    requires FieldsOk(fields)
    ensures AddHeaders(table, Printed(fields)) == LastWins(table, Framed(fields))
    decreases |fields|
  {
    if fields != [] {
      var f, line := fields[0], fields[0].key + ": " + fields[0].value + "\r";
      assert line == f.key + [':', ' '] + (f.value + "\r");
      Find2After(f.key, ':', ' ', f.value + "\r");
      assert line[..|f.key|] == f.key && line[|f.key|..] == ": " + f.value + "\r";
      assert Printed(fields)[1..] == Printed(fields[1..]) && Framed(fields)[1..] == Framed(fields[1..]);
      HeadersRead(AddHeader(table, line), fields[1..]);
    }
  }

  /**
   The header table of a printed request has exactly the names of its header lines, each with the value of the last
   line of that name, which keeps the separator in front and a carriage return behind.
   */
  lemma HeadersParsed(verb: string, path: string, pairs: seq<Pair>, version: string, fields: seq<Pair>, body: string,
        name: string)
    requires Word(verb) && PathOk(path) && PairsOk(pairs) && Word(version) && FieldsOk(fields)
    ensures var r := Parse(RequestText(verb, path, pairs, version, Printed(fields), body));
            && r.Some?
            && (name in r.value.headers <==> exists i: nat :: LastPair(fields, name, i))
            && forall i: nat :: LastPair(fields, name, i) ==>
                 name in r.value.headers && r.value.headers[name] == ": " + fields[i].value + "\r"
  {
    hide Parse, Word, PathOk, PairsOk, RequestText, CrlfFree, LastWins, BodyOf, AddHeaders, Pairless;
    assert HeadersOk(Printed(fields));
    ParsePrinted(verb, path, pairs, version, Printed(fields), body);
    HeadersRead(map[], fields);
    WinsLast(map[], Framed(fields), name);
    forall i: nat ensures LastPair(fields, name, i) <==> LastPair(Framed(fields), name, i) {
    }
  }

  /** The lines in front of the first empty one. */
  function HeadLines(lines: seq<string>): (n: nat)
    ensures n <= |lines| && (n < |lines| ==> lines[n] == "\r") && forall i :: 0 <= i < n ==> lines[i] != "\r"
  {
    if lines == [] || lines[0] == "\r" then 0 else 1 + HeadLines(lines[1..])
  }

  /** The fields in them: a line is divided where a colon is first followed by a space, others are passed over. */
  function FieldsIn(lines: seq<string>): seq<Pair> {
    if lines == [] then []
    else
      Find2Bounds(lines[0], ':', ' ');
      (match Find2(lines[0], ':', ' ')
       case None => []
       case Some(i) => [Pair(lines[0][..i], lines[0][i..])]) + FieldsIn(lines[1..])
  }

  /** Whatever lines follow the first: fields up to the first empty line, the last of a name winning, then the body. */
  lemma {:induction false} RestExactly(table: Table, lines: seq<string>)
    ensures var n := HeadLines(lines);
            Rest(table, lines) ==
              (LastWins(table, FieldsIn(lines[..n])), if n < |lines| then lines[n + 1..] else [])
    decreases |lines|
  {
    var n := HeadLines(lines);
    if n == 0 {
      assert lines[..n] == [];
    } else {
      var line, rest := lines[0], lines[1..];
      Find2Bounds(line, ':', ' ');
      RestExactly(AddHeader(table, line), rest);
      ghost var head, more := lines[..n], FieldsIn(rest[..n - 1]);
      assert head[0] == line && head[1..] == rest[..n - 1];
      match Find2(line, ':', ' ') {
        case None =>
          assert FieldsIn(head) == [] + more == more;
        case Some(i) =>
          assert FieldsIn(head) == [Pair(line[..i], line[i..])] + more;
          assert FieldsIn(head)[1..] == more;
      }
    }
  }

  // ---------------------------------------------------------------- formatHttpResponse

  function Decimal(n: nat): string {
    var digit := [(n % 10 + 48) as char];
    if n < 10 then digit else Decimal(n / 10) + digit
  }

  function Number(s: string): nat {
    if s == [] then 0
    else 10 * Number(s[..|s| - 1]) + (var c := s[|s| - 1]; if '0' <= c <= '9' then c as int - 48 else 0)
  }

  lemma {:induction false} DecimalReads(n: nat)
    ensures Number(Decimal(n)) == n && Decimal(n) != [] && forall c :: c in Decimal(n) ==> '0' <= c <= '9'
    decreases n
  {
    var digit := [(n % 10 + 48) as char];
    if n >= 10 {
      DecimalReads(n / 10);
      assert Decimal(n)[..|Decimal(n)| - 1] == Decimal(n / 10);
    } else {
      assert Decimal(n)[..0] == [];
    }
  }

  /** The reason phrases by status. */
  type Phrases = map<nat, string>

  ghost predicate PhrasesOk(phrases: Phrases) {
    forall status :: status in phrases ==> '\r' !in phrases[status]
  }

  /** A status the table does not know is printed as Lua prints nil. */
  function StatusText(phrases: Phrases, status: nat): string {
    if status in phrases then phrases[status] else "nil"
  }

  function StatusLine(phrases: Phrases, status: nat): string {
    "HTTP/1.1 " + Decimal(status) + " " + StatusText(phrases, status)
  }

  function HeaderLine(name: string, value: string): string {
    name + ":" + value
  }

  /** The user's header lines, in the order in which Lua visits the table. */
  function UserLines(headers: Table, order: seq<string>): seq<string>
    requires forall i :: 0 <= i < |order| ==> order[i] in headers
  {
    if order == [] then [] else [HeaderLine(order[0], headers[order[0]])] + UserLines(headers, order[1..])
  }

  function AddedLines(headers: Table, length: nat): seq<string> {
    (if "Content-Type" in headers then [] else [HeaderLine("Content-Type", "text/plain")])
    + [HeaderLine("Content-length", Decimal(length))]
    + (if "Connection" in headers then [] else [HeaderLine("Connection", "close")])
  }

  function ResponseText(phrases: Phrases, status: nat, headers: Table, order: seq<string>, body: string): string
    requires forall i :: 0 <= i < |order| ==> order[i] in headers
  {
    StatusLine(phrases, status) + "\r\n" + Join(UserLines(headers, order) + AddedLines(headers, |body|), "\r\n") +
      "\r\n\r\n" + body
  }

  // ---------------------------------------------------------------- how a recipient reads it

  /** RFC 9112, section 2.1: lines up to the first empty one, and what follows it. */
  function ReadHead(text: string): Option<(seq<string>, string)>
    decreases |text|
  {
    Find2Bounds(text, '\r', '\n');
    match FindCrlf(text)
    case None => None
    case Some(i) =>
      if i == 0 then Some(([], text[2..]))
      else match ReadHead(text[i + 2..])
        case None => None
        case Some(r) => Some(([text[..i]] + r.0, r.1))
  }

  function LowerChar(c: char): char {
    if 'A' <= c <= 'Z' then (c as int + 32) as char else c
  }

  function Lower(s: string): string {
    seq(|s|, i requires 0 <= i < |s| => LowerChar(s[i]))
  }

  datatype Status = Status(version: string, code: string, reason: string)

  /** RFC 9112, section 4: the version, the code and the reason phrase, each divided from the next by a space. */
  function ReadStatus(line: string): Option<Status> {
    FindBounds(line, ' ');
    match Find(line, ' ')
    case None => None
    case Some(i) =>
      var rest := line[i + 1..];
      FindBounds(rest, ' ');
      match Find(rest, ' ')
      case None => None
      case Some(j) => Some(Status(line[..i], rest[..j], rest[j + 1..]))
  }

  /** RFC 9112, section 5: a field name ends at the first colon. */
  function ReadField(line: string): Pair {
    FindBounds(line, ':');
    match Find(line, ':')
    case None => Pair(line, "")
    case Some(i) => Pair(line[..i], line[i + 1..])
  }

  function ReadFields(lines: seq<string>): (r: seq<Pair>)
    ensures |r| == |lines| && forall i :: 0 <= i < |lines| ==> r[i] == ReadField(lines[i])
  {
    seq(|lines|, i requires 0 <= i < |lines| => ReadField(lines[i]))
  }

  /** RFC 9112, section 5: a field name ends at the first colon, and its case does not matter. */
  predicate IsLength(line: string) {
    FindBounds(line, ':');
    Find(line, ':').Some? && Lower(line[..Find(line, ':').value]) == "content-length"
  }

  function LengthOf(line: string): seq<string> {
    FindBounds(line, ':');
    if IsLength(line) then [line[Find(line, ':').value + 1..]] else []
  }

  /** The values of the Content-Length lines, in order. */
  function Lengths(lines: seq<string>): seq<string> {
    if lines == [] then [] else LengthOf(lines[0]) + Lengths(lines[1..])
  }

  lemma {:induction false} LengthsJoin(a: seq<string>, b: seq<string>)
    ensures Lengths(a + b) == Lengths(a) + Lengths(b)
    decreases |a|
  {
    if a == [] {
      assert a + b == b;
    } else {
      hide LengthOf;
      assert (a + b)[1..] == a[1..] + b;
      LengthsJoin(a[1..], b);
      assert Lengths(a + b) == LengthOf(a[0]) + (Lengths(a[1..]) + Lengths(b));
    }
  }

  lemma {:induction false} LengthsNone(lines: seq<string>)
    ensures Lengths(lines) == [] <==> forall i :: 0 <= i < |lines| ==> !IsLength(lines[i])
    decreases |lines|
  {
    if lines != [] {
      hide IsLength;
      LengthsNone(lines[1..]);
      if Lengths(lines) == [] {
        forall i | 0 <= i < |lines| ensures !IsLength(lines[i]) {
          if i > 0 {
            assert lines[i] == lines[1..][i - 1];
          }
        }
      }
    }
  }

  lemma {:induction false} LinesRead(lines: seq<string>, body: string)
    requires forall i :: 0 <= i < |lines| ==> lines[i] != [] && CrlfFree(lines[i])
    ensures ReadHead(HeaderText(lines) + "\r\n" + body) == Some((lines, body))
    decreases |lines|
  {
    var text := HeaderText(lines) + "\r\n" + body;
    if lines == [] {
      CrlfAfter([], body);
      assert text == [] + "\r\n" + body && text[2..] == body;
    } else {
      var more := HeaderText(lines[1..]) + "\r\n" + body;
      assert text == lines[0] + "\r\n" + more;
      CrlfAfter(lines[0], more);
      assert text[..|lines[0]|] == lines[0] && text[|lines[0]| + 2..] == more;
      LinesRead(lines[1..], body);
      assert lines == [lines[0]] + lines[1..];
    }
  }

  lemma {:induction false} JoinLines(lines: seq<string>)
    requires lines != []
    ensures Join(lines, "\r\n") + "\r\n" == HeaderText(lines)
    decreases |lines|
  {
    if |lines| > 1 {
      JoinLines(lines[1..]);
      assert Join(lines, "\r\n") + "\r\n" == lines[0] + "\r\n" + (Join(lines[1..], "\r\n") + "\r\n");
    }
  }

  lemma ResponseLines(phrases: Phrases, status: nat, headers: Table, order: seq<string>, body: string)
    requires forall i :: 0 <= i < |order| ==> order[i] in headers
    ensures ResponseText(phrases, status, headers, order, body) ==
            HeaderText([StatusLine(phrases, status)] + (UserLines(headers, order) + AddedLines(headers, |body|))) +
              "\r\n" + body
  {
    hide UserLines, AddedLines, StatusLine, HeaderText, Join;
    var lines := UserLines(headers, order) + AddedLines(headers, |body|);
    AddedSome(headers, |body|);
    JoinLines(lines);
    HeadFirst(StatusLine(phrases, status), lines);
    assert ResponseText(phrases, status, headers, order, body)
        == StatusLine(phrases, status) + "\r\n" + (Join(lines, "\r\n") + "\r\n") + "\r\n" + body;
  }

  lemma AddedSome(headers: Table, length: nat)
    ensures AddedLines(headers, length) != []
  {
  }

  lemma HeadFirst(first: string, lines: seq<string>)
    ensures HeaderText([first] + lines) == first + "\r\n" + HeaderText(lines)
  {
    assert ([first] + lines)[1..] == lines;
  }

  lemma {:induction false} UserLinesFree(headers: Table, order: seq<string>)
    requires forall i :: 0 <= i < |order| ==> order[i] in headers && CrlfFree(HeaderLine(order[i], headers[order[i]]))
    ensures forall i :: 0 <= i < |UserLines(headers, order)| ==>
              UserLines(headers, order)[i] != [] && CrlfFree(UserLines(headers, order)[i])
    decreases |order|
  {
    if order != [] {
      hide CrlfFree;
      UserLinesFree(headers, order[1..]);
    }
  }

  lemma NoCrNoCrlf(s: string)
    requires '\r' !in s
    ensures CrlfFree(s)
  {
  }

  lemma LineFree(name: string, value: string)
    requires '\r' !in name && '\r' !in value
    ensures HeaderLine(name, value) != [] && CrlfFree(HeaderLine(name, value))
  {
    NoCrNoCrlf(HeaderLine(name, value));
  }

  lemma AddedLinesFree(headers: Table, length: nat)
    ensures forall i :: 0 <= i < |AddedLines(headers, length)| ==>
              AddedLines(headers, length)[i] != [] && CrlfFree(AddedLines(headers, length)[i])
  {
    hide CrlfFree, HeaderLine, Decimal;
    DecimalReads(length);
    LineFree("Content-Type", "text/plain");
    LineFree("Content-length", Decimal(length));
    LineFree("Connection", "close");
  }

  lemma StatusLineFree(phrases: Phrases, status: nat)
    requires PhrasesOk(phrases)
    ensures StatusLine(phrases, status) != [] && CrlfFree(StatusLine(phrases, status))
  {
    assert '\r' !in StatusText(phrases, status);
    DecimalReads(status);
    hide StatusText;
    NoCrNoCrlf(StatusLine(phrases, status));
  }

  lemma LineLength(name: string, value: string)
    requires ':' !in name
    ensures Lengths([HeaderLine(name, value)]) == if Lower(name) == "content-length" then [value] else []
  {
    var line := HeaderLine(name, value);
    assert line == name + [':'] + value;
    var lines := [line];
    assert lines[1..] == [];
    FindAfter(name, ':', value);
    assert line[..|name|] == name && line[|name| + 1..] == value;
    hide Lower, Find;
  }

  lemma LowerNames()
    ensures Lower("Content-length") == "content-length"
    ensures |Lower("Content-Type")| == 12 && |Lower("Connection")| == 10 && |"content-length"| == 14
  {
  }

  /** Of the lines the formatter adds, one is a length, and it is the right one. */
  lemma AddedLength(headers: Table, length: nat)
    ensures Lengths(AddedLines(headers, length)) == [Decimal(length)]
  {
    hide Lengths, HeaderLine, Decimal, Lower;
    var line := HeaderLine("Content-length", Decimal(length));
    var a := if "Content-Type" in headers then [] else [HeaderLine("Content-Type", "text/plain")];
    var b := if "Connection" in headers then [] else [HeaderLine("Connection", "close")];
    LowerNames();
    LineLength("Content-length", Decimal(length));
    LineLength("Content-Type", "text/plain");
    LineLength("Connection", "close");
    LengthsNone([]);
    assert Lengths(a) == [] && Lengths(b) == [];
    LengthsJoin(a, [line]);
    LengthsJoin(a + [line], b);
  }

  /**
   Responses are self-describing: for every status, every body, even one with blank lines, and headers without line
   breaks in any order, the text read up to its first empty line gives the status line, the header lines and the body;
   the length line says the body's length; and it is the only one exactly when the user supplied none.
   */
  lemma SelfDescribing(phrases: Phrases, status: nat, headers: Table, order: seq<string>, body: string)
    requires forall i :: 0 <= i < |order| ==> order[i] in headers && CrlfFree(HeaderLine(order[i], headers[order[i]]))
    requires PhrasesOk(phrases)
    ensures var user := UserLines(headers, order);
            var lines := user + AddedLines(headers, |body|);
            && ReadHead(ResponseText(phrases, status, headers, order, body)) ==
              Some(([StatusLine(phrases, status)] + lines, body))
            && Lengths(lines) == Lengths(user) + [Decimal(|body|)] && Number(Decimal(|body|)) == |body|
            && (Lengths(lines) == [Decimal(|body|)] <==> forall i :: 0 <= i < |user| ==> !IsLength(user[i]))
  {
    hide UserLines, AddedLines, StatusLine, CrlfFree, Lengths, IsLength, ReadHead, ResponseText, HeaderText, Decimal;
    var user, added := UserLines(headers, order), AddedLines(headers, |body|);
    ResponseLines(phrases, status, headers, order, body);
    UserLinesFree(headers, order);
    AddedLinesFree(headers, |body|);
    StatusLineFree(phrases, status);
    LinesRead([StatusLine(phrases, status)] + (user + added), body);
    LengthsJoin(user, added);
    AddedLength(headers, |body|);
    DecimalReads(|body|);
    LengthsNone(user);
  }

  /** A recipient of the first line reads the version, the status in decimal digits and its phrase. */
  lemma StatusReads(phrases: Phrases, status: nat)
    ensures var r := ReadStatus(StatusLine(phrases, status));
            && r.Some? && r.value.version == "HTTP/1.1"
            && r.value.code != [] && (forall c :: c in r.value.code ==> '0' <= c <= '9')
            && Number(r.value.code) == status
            && r.value.reason == if status in phrases then phrases[status] else "nil"
  {
    hide Decimal, Number;
    var version, code, reason := "HTTP/1.1", Decimal(status), StatusText(phrases, status);
    var line, rest := StatusLine(phrases, status), code + [' '] + reason;
    DecimalReads(status);
    assert line == version + [' '] + rest;
    FindAfter(version, ' ', rest);
    assert line[..|version|] == version && line[|version| + 1..] == rest;
    FindAfter(code, ' ', reason);
    assert rest[..|code|] == code && rest[|code| + 1..] == reason;
  }

  /** The user's header fields, in the order in which Lua visits the table. */
  function UserFields(headers: Table, order: seq<string>): (r: seq<Pair>)
    requires forall i :: 0 <= i < |order| ==> order[i] in headers
    ensures |r| == |order| && forall i :: 0 <= i < |order| ==> r[i] == Pair(order[i], headers[order[i]])
  {
    seq(|order|, i requires 0 <= i < |order| => Pair(order[i], headers[order[i]]))
  }

  /** The fields a response has besides the user's. */
  function MoreFields(headers: Table, length: string): seq<Pair> {
    (if "Content-Type" in headers then [] else [Pair("Content-Type", "text/plain")])
    + [Pair("Content-length", length)]
    + (if "Connection" in headers then [] else [Pair("Connection", "close")])
  }

  lemma FieldReads(name: string, value: string)
    ensures ReadField(HeaderLine(name, value)) == Pair(name, value) <==> ':' !in name
  {
    var line := HeaderLine(name, value);
    assert line == name + [':'] + value;
    if ':' !in name {
      FindAfter(name, ':', value);
      assert line[..|name|] == name && line[|name| + 1..] == value;
    } else {
      FindBounds(line, ':');
      assert ':' in line && ':' !in ReadField(line).key;
    }
  }

  lemma {:induction false} UserLineAt(headers: Table, order: seq<string>)
    requires forall i :: 0 <= i < |order| ==> order[i] in headers
    ensures |UserLines(headers, order)| == |order|
    ensures forall i :: 0 <= i < |order| ==> UserLines(headers, order)[i] == HeaderLine(order[i], headers[order[i]])
    decreases |order|
  {
    hide HeaderLine;
    if order != [] {
      UserLineAt(headers, order[1..]);
    }
  }

  lemma UserReads(headers: Table, order: seq<string>)
    requires forall i :: 0 <= i < |order| ==> order[i] in headers
    ensures ReadFields(UserLines(headers, order)) == UserFields(headers, order)
            <==> forall i :: 0 <= i < |order| ==> ':' !in order[i]
  {
    hide UserLines, ReadField, HeaderLine;
    UserLineAt(headers, order);
    var read, user := ReadFields(UserLines(headers, order)), UserFields(headers, order);
    forall i | 0 <= i < |order| ensures read[i] == user[i] <==> ':' !in order[i] {
      FieldReads(order[i], headers[order[i]]);
    }
    if read == user {
      forall i | 0 <= i < |order| ensures ':' !in order[i] {
        assert read[i] == user[i];
      }
    }
  }

  lemma MoreReads(headers: Table, length: nat)
    ensures ReadFields(AddedLines(headers, length)) == MoreFields(headers, Decimal(length))
  {
    hide ReadField, HeaderLine, Decimal;
    FieldReads("Content-Type", "text/plain");
    FieldReads("Content-length", Decimal(length));
    FieldReads("Connection", "close");
  }

  /**
   What a recipient makes of a response, for every status, every body and headers without line breaks in any order:
   the first line says version, status and phrase; the body is the body; and the header fields are exactly the user's
   names and values followed by the missing ones of type, length and connection, if and only if no name of the user's
   has a colon.
   */
  lemma ResponseReads(phrases: Phrases, status: nat, headers: Table, order: seq<string>, body: string)
    requires forall i :: 0 <= i < |order| ==> order[i] in headers && CrlfFree(HeaderLine(order[i], headers[order[i]]))
    requires PhrasesOk(phrases)
    ensures var r := ReadHead(ResponseText(phrases, status, headers, order, body));
            && r.Some? && r.value.0 != [] && r.value.1 == body
            && var first := ReadStatus(r.value.0[0]);
            && first.Some? && first.value.version == "HTTP/1.1" && Number(first.value.code) == status
            && (status in phrases ==> first.value.reason == phrases[status])
            && (ReadFields(r.value.0[1..]) == UserFields(headers, order) + MoreFields(headers, Decimal(|body|))
                <==> forall i :: 0 <= i < |order| ==> ':' !in order[i])
  {
    hide UserLines, AddedLines, StatusLine, CrlfFree, Lengths, IsLength, ReadHead, ResponseText, Decimal, ReadStatus;
    hide ReadFields, UserFields, MoreFields, Number, HeaderLine, PhrasesOk;
    SelfDescribing(phrases, status, headers, order, body);
    StatusReads(phrases, status);
    FieldsRead(headers, order, |body|);
    var lines := UserLines(headers, order) + AddedLines(headers, |body|);
    assert ([StatusLine(phrases, status)] + lines)[1..] == lines;
  }

  lemma ReadJoin(a: seq<string>, b: seq<string>)
    ensures ReadFields(a + b) == ReadFields(a) + ReadFields(b)
  {
    hide ReadField;
  }

  lemma UserLength(headers: Table, order: seq<string>)
    requires forall i :: 0 <= i < |order| ==> order[i] in headers
    ensures |ReadFields(UserLines(headers, order))| == |UserFields(headers, order)|
  {
    hide ReadField, HeaderLine;
    UserLineAt(headers, order);
  }

  lemma FieldsRead(headers: Table, order: seq<string>, length: nat)
    requires forall i :: 0 <= i < |order| ==> order[i] in headers
    ensures ReadFields(UserLines(headers, order) + AddedLines(headers, length))
            == UserFields(headers, order) + MoreFields(headers, Decimal(length))
            <==> forall i :: 0 <= i < |order| ==> ':' !in order[i]
  {
    hide UserLines, AddedLines, Decimal, ReadField, MoreFields, ReadFields, UserFields, HeaderLine;
    var user, added := UserLines(headers, order), AddedLines(headers, length);
    UserReads(headers, order);
    MoreReads(headers, length);
    ReadJoin(user, added);
    UserLength(headers, order);
    SamePrefix(ReadFields(user), UserFields(headers, order), ReadFields(added));
  }

  lemma SamePrefix(a: seq<Pair>, b: seq<Pair>, c: seq<Pair>)
    requires |a| == |b|
    ensures a + c == b + c <==> a == b
  {
    if a + c == b + c {
      assert a == (a + c)[..|a|] == (b + c)[..|b|] == b;
    }
  }

  // ---------------------------------------------------------------- the Lua functions

  /** api.split: the matches of "([^sep]+)" one after another. */
  method ApiSplit(text: string, sep: char) returns (t: seq<string>)
    ensures t == Split(text, sep)
  {
    t := [];
    var pos := 0;
    while pos < |text|
      invariant pos <= |text| && t + Split(text[pos..], sep) == Split(text, sep)
    {
      if text[pos] == sep {
        assert text[pos..][1..] == text[pos + 1..];
        pos := pos + 1;
      } else {
        var n := Run(text[pos..], sep);
        assert text[pos..][n..] == text[pos + n..];
        t := t + [text[pos..][..n]];
        pos := pos + n;
      }
    }
  }

  lemma NextLine(s: string)
    ensures match FindCrlf(s)
            case None => Lines(s) == [s]
            case Some(i) => i + 2 <= |s| && Lines(s) == [s[..i + 1]] + Lines(s[i + 2..])
  {
    Find2Bounds(s, '\r', '\n');
  }

  /** The loop that cuts the message at every CRLF. */
  method SplitLines(msg: string) returns (lines: seq<string>)
    ensures lines == Lines(msg)
  {
    hide Lines, FindCrlf;
    lines := [];
    var start := 0;
    while true
      invariant start <= |msg| && lines + Lines(msg[start..]) == Lines(msg)
      decreases |msg| - start
    {
      NextLine(msg[start..]);
      var index := FindCrlf(msg[start..]);
      if index.None? {
        break;
      }
      assert msg[start..][index.value + 2..] == msg[start + index.value + 2..];
      lines := lines + [msg[start..][..index.value + 1]];
      start := start + index.value + 2;
    }
    lines := lines + [msg[start..]];
  }

  /** The query part of the request target. */
  method ParseQuery(path: string, text: string) returns (query: Table)
    ensures query == Query(path, Split(text, '&'))
  {
    var args := ApiSplit(text, '&');
    query := map[];
    if args == [] || args[0] != path {
      for i := 0 to |args|
        invariant AddArgs(query, args[i..]) == AddArgs(map[], args)
      {
        assert args[i..][1..] == args[i + 1..];
        FindBounds(args[i], '=');
        var index := Find(args[i], '=');
        if index.Some? {
          query := query[args[i][..index.value] := args[i][index.value + 1..]];
        }
      }
    }
  }

  /** The header lines, and after an empty line the body. */
  method ReadLines(lines: seq<string>) returns (headers: Table, body: seq<string>)
    requires lines != []
    ensures (headers, body) == Rest(map[], lines[1..])
  {
    var isBody := false;
    headers, body := map[], [];
    for i := 1 to |lines|
      invariant !isBody ==> body == [] && Rest(headers, lines[i..]) == Rest(map[], lines[1..])
      invariant isBody ==> (headers, body + lines[i..]) == Rest(map[], lines[1..])
    {
      var line := lines[i];
      assert lines[i..][1..] == lines[i + 1..];
      if isBody {
        assert body + lines[i..] == body + [line] + lines[i + 1..];
        body := body + [line];
      } else if line == "\r" {
        isBody := true;
        assert body + lines[i + 1..] == lines[i + 1..];
      } else {
        Find2Bounds(line, ':', ' ');
        var index := Find2(line, ':', ' ');
        if index.Some? {
          headers := headers[line[..index.value] := line[index.value..]];
        }
      }
    }
    assert lines[|lines|..] == [] && body + [] == body;
  }

  method ParseHttpRequest(msg: string) returns (r: Option<Request>)
    ensures r == Parse(msg)
  {
    var lines := SplitLines(msg);
    LinesJoin(msg);
    if |lines| < 2 {
      return None;
    }
    var words := ApiSplit(lines[0], ' ');
    if |words| < 2 {
      return None;
    }
    var uri, query := words[1], map[];
    FindBounds(uri, '?');
    var argIndex := Find(uri, '?');
    if argIndex.Some? {
      var args := uri[argIndex.value + 1..];
      uri := uri[..argIndex.value];
      query := ParseQuery(uri, args);
    }
    var headers, body := ReadLines(lines);
    r := Some(Request(words[0], uri, if |words| > 2 then Some(words[2]) else None, query, headers, BodyOf(body)));
  }

  /** The lines the formatter adds to the user's: two where the user has none of the name, the length always. */
  method AddLines(headers: Table, lines: seq<string>, length: nat) returns (all: seq<string>)
    ensures all == lines + AddedLines(headers, length)
  {
    hide Decimal, HeaderLine;
    all := lines;
    if "Content-Type" !in headers {
      all := all + [HeaderLine("Content-Type", "text/plain")];
    }
    all := all + [HeaderLine("Content-length", Decimal(length))];
    if "Connection" !in headers {
      all := all + [HeaderLine("Connection", "close")];
    }
  }

  /** Status 200 and an empty body are the defaults. */
  method FormatHttpResponse(phrases: Phrases, status: Option<nat>, headers: Table, order: seq<string>,
        body: Option<string>) returns (text: string)
    requires forall i :: 0 <= i < |order| ==> order[i] in headers
    ensures text == ResponseText(phrases, if status.Some? then status.value else 200, headers, order,
                                 if body.Some? then body.value else "")
  {
    hide StatusLine, Decimal, HeaderLine, Join, AddedLines;
    var statusCode, bodyText := if status.Some? then status.value else 200, if body.Some? then body.value else "";
    var lines := [];
    for i := 0 to |order|
      invariant lines + UserLines(headers, order[i..]) == UserLines(headers, order)
    {
      assert order[i..][1..] == order[i + 1..];
      lines := lines + [HeaderLine(order[i], headers[order[i]])];
    }
    assert lines == UserLines(headers, order);
    lines := AddLines(headers, lines, |bodyText|);
    text := StatusLine(phrases, statusCode) + "\r\n" + Join(lines, "\r\n") + "\r\n\r\n" + bodyText;
  }
}
