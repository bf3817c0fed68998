/** Local Service Discovery messages (BEP 14): the announce printer and parser. */
module Lsd {
  import opened Types

  const CRLF := "\r\n"
  const HEAD := "BT-SEARCH * HTTP/1.1"
  const GROUP := "239.192.152.143:6771"

  datatype Announce = Announce(port: nat, cookie: Option<string>, hashes: seq<seq<nat>>)

  // ------------------------------------------------------------ lines

  predicate BreakAt(s: string, i: nat) {
    i + 1 < |s| && s[i] == '\r' && s[i + 1] == '\n'
  }

  ghost predicate NoBreak(s: string) {
    forall i: nat :: !BreakAt(s, i)
  }

  /** Where the first line break is, or the end. */
  function FindBreak(s: string, from: nat): (k: nat)
    requires from <= |s|
    ensures from <= k <= |s| && (k == |s| || BreakAt(s, k)) && forall i: nat :: from <= i < k ==> !BreakAt(s, i)
    decreases |s| - from
  {
    if from == |s| || BreakAt(s, from) then from else FindBreak(s, from + 1)
  }

  function Split(s: string): seq<string>
    decreases |s|
  {
    var k := FindBreak(s, 0);
    if k == |s| then [s] else [s[..k]] + Split(s[k + 2..])
  }

  /** Every line ended by a break. */
  function Lines(lines: seq<string>): string {
    if lines == [] then "" else lines[0] + CRLF + Lines(lines[1..])
  }

  lemma SplitLine(line: string, rest: string)
    requires NoBreak(line)
    ensures Split(line + CRLF + rest) == [line] + Split(rest)
  {
    var s := line + CRLF + rest;
    var k := FindBreak(s, 0);
    assert BreakAt(s, |line|);
    assert k == |line| by {
      assert forall i: nat :: i < |line| && BreakAt(s, i) ==> BreakAt(line, i);
    }
    assert s[..|line|] == line && s[|line| + 2..] == rest;
  }

  /** Splitting gives back the lines that were joined, and an empty one after the last break. */
  lemma {:induction false} SplitLines(lines: seq<string>)
    requires forall l :: l in lines ==> NoBreak(l)
    ensures Split(Lines(lines)) == lines + [""]
    decreases |lines|
  {
    if lines != [] {
      SplitLine(lines[0], Lines(lines[1..]));
      SplitLines(lines[1..]);
      assert lines == [lines[0]] + lines[1..];
    }
  }

  lemma {:induction false} SplitClean(s: string)
    ensures forall l :: l in Split(s) ==> NoBreak(l)
    decreases |s|
  {
    var k := FindBreak(s, 0);
    if k < |s| {
      SplitClean(s[k + 2..]);
      forall i: nat
        ensures !BreakAt(s[..k], i)
      {
        assert i + 1 < k ==> !BreakAt(s, i);
      }
    }
  }

  lemma JoinClean(a: string, b: string)
    requires NoBreak(a) && NoBreak(b) && a != [] && a[|a| - 1] != '\r'
    ensures NoBreak(a + b)
  {
    forall i: nat
      ensures !BreakAt(a + b, i)
    {
      assert !BreakAt(a, i);
      if i >= |a| {
        assert !BreakAt(b, i - |a|);
      }
    }
  }

  lemma PartClean(s: string, lo: nat, hi: nat)
    requires NoBreak(s) && lo <= hi <= |s|
    ensures NoBreak(s[lo..hi])
  {
    forall i: nat
      ensures !BreakAt(s[lo..hi], i)
    {
      assert !BreakAt(s, lo + i);
    }
  }

  // ------------------------------------------------------------ blanks

  /** Unicode white space. */
  predicate IsSpace(c: char) {
    var u := c as int;
    || 0x09 <= u <= 0x0D || u == 0x20 || u == 0x85 || u == 0xA0 || u == 0x1680 || 0x2000 <= u <= 0x200A
    || u == 0x2028 || u == 0x2029 || u == 0x202F || u == 0x205F || u == 0x3000
  }

  /** Where the text starts, and where it ends. */
  function Leading(s: string): (k: nat)
    ensures k <= |s| && (k < |s| ==> !IsSpace(s[k])) && forall i :: 0 <= i < k ==> IsSpace(s[i])
  {
    if s == [] || !IsSpace(s[0]) then 0 else 1 + Leading(s[1..])
  }

  function Trailing(s: string, lo: nat): (k: nat)
    requires lo <= |s|
    ensures lo <= k <= |s| && (lo < k ==> !IsSpace(s[k - 1])) && forall i :: k <= i < |s| ==> IsSpace(s[i])
  {
    if |s| == lo || !IsSpace(s[|s| - 1]) then |s| else Trailing(s[..|s| - 1], lo)
  }

  function Trim(s: string): string {
    var lo := Leading(s);
    s[lo..Trailing(s, lo)]
  }

  predicate Trimmed(s: string) {
    s == [] || (!IsSpace(s[0]) && !IsSpace(s[|s| - 1]))
  }

  lemma TrimIsTrimmed(s: string)
    ensures Trimmed(Trim(s)) && (NoBreak(s) ==> NoBreak(Trim(s)))
  {
    var lo := Leading(s);
    var hi := Trailing(s, lo);
    if NoBreak(s) {
      PartClean(s, lo, hi);
    }
  }

  /** One blank in front of a trimmed text is all that trimming removes. */
  lemma TrimBlank(s: string)
    requires Trimmed(s)
    ensures Trim(" " + s) == s
  {
    var t := " " + s;
    var lo := Leading(t);
    assert t[0] == ' ' && t[1..] == s;
    if s == [] {
      assert lo == 1;
    } else {
      assert t[1] == s[0] && lo == 1;
      assert t[|t| - 1] == s[|s| - 1];
      assert Trailing(t, lo) == |t|;
    }
  }

  // ------------------------------------------------------------ numbers and hashes

  predicate IsDigit(c: char) {
    '0' <= c <= '9'
  }

  function DigitOf(n: nat): (c: char)
    requires n < 10
    ensures IsDigit(c) && DigitValue(c) == n
  {
    ('0' as int + n) as char
  }

  function Decimal(n: nat): (s: string)
    ensures |s| > 0 && forall i :: 0 <= i < |s| ==> IsDigit(s[i])
  {
    if n < 10 then [DigitOf(n)] else Decimal(n / 10) + [DigitOf(n % 10)]
  }

  function DigitValue(c: char): nat
    requires IsDigit(c)
  {
    (c as int) - ('0' as int)
  }

  function Value(s: string): nat
    requires forall i :: 0 <= i < |s| ==> IsDigit(s[i])
  {
    if s == [] then 0 else Value(s[..|s| - 1]) * 10 + DigitValue(s[|s| - 1])
  }

  /** An unsigned 16-bit number, with an optional plus sign. */
  function ParsePort(s: string): Option<nat> {
    var digits := if s != [] && s[0] == '+' then s[1..] else s;
    if digits == [] || !(forall i :: 0 <= i < |digits| ==> IsDigit(digits[i])) then None
    else if Value(digits) > 0xFFFF then None
    else Some(Value(digits))
  }

  lemma {:induction false} DecimalValue(n: nat)
    ensures Value(Decimal(n)) == n
  {
    if n >= 10 {
      DecimalValue(n / 10);
      var s := Decimal(n);
      assert s[..|s| - 1] == Decimal(n / 10);
    } else {
      assert Decimal(n)[..0] == [];
    }
  }

  lemma PortBack(n: nat)
    requires n <= 0xFFFF
    ensures ParsePort(Decimal(n)) == Some(n)
  {
    DecimalValue(n);
  }

  /** The group's port number in text. */
  lemma PortText()
    ensures Decimal(6771) == "6771" && ParsePort("6771") == Some(6771)
  {
    assert Decimal(6) == "6";
    assert Decimal(67) == Decimal(6) + "7";
    assert Decimal(677) == Decimal(67) + "7";
    assert Decimal(6771) == Decimal(677) + "1";
    PortBack(6771);
  }

  predicate IsHex(c: char) {
    '0' <= c <= '9' || 'a' <= c <= 'f' || 'A' <= c <= 'F'
  }

  function HexValue(c: char): (v: nat)
    requires IsHex(c)
    ensures v < 16
  {
    if '0' <= c <= '9' then c as int - '0' as int
    else if 'a' <= c <= 'f' then c as int - 'a' as int + 10
    else c as int - 'A' as int + 10
  }

  predicate IsHash(s: string) {
    |s| == 40 && forall i :: 0 <= i < |s| ==> IsHex(s[i])
  }

  function DecodeHash(s: string): (h: seq<nat>)
    requires IsHash(s)
    ensures |h| == 20
  {
    seq(20, i requires 0 <= i < 20 => HexValue(s[2 * i]) * 16 + HexValue(s[2 * i + 1]))
  }

  /** Twenty bytes. */
  predicate IsDigest(h: seq<nat>) {
    |h| == 20 && forall i :: 0 <= i < 20 ==> h[i] < 256
  }

  /** One hex digit, in upper or lower case. */
  function HexDigit(v: nat, upper: bool): (c: char)
    requires v < 16
    ensures IsHex(c)
  {
    if v < 10 then ('0' as int + v) as char
    else if upper then ('A' as int + (v - 10)) as char
    else ('a' as int + (v - 10)) as char
  }

  /** A 20-byte hash in text, two digits per byte, the higher one first. */
  function HexOf(h: seq<nat>, upper: bool): (s: string)
    requires IsDigest(h)
    ensures IsHash(s)
  {
    seq(40, k requires 0 <= k < 40 => HexDigit(if k % 2 == 0 then h[k / 2] / 16 else h[k / 2] % 16, upper))
  }

  /** Decoding gives the bytes back, whatever the case of the letters. */
  lemma HashBack(h: seq<nat>, upper: bool)
    requires IsDigest(h)
    ensures DecodeHash(HexOf(h, upper)) == h
  {
    var s := HexOf(h, upper);
    forall i | 0 <= i < 20
      ensures DecodeHash(s)[i] == h[i]
    {
      assert 2 * i / 2 == i && (2 * i + 1) / 2 == i;
      assert s[2 * i] == HexDigit(h[i] / 16, upper) && s[2 * i + 1] == HexDigit(h[i] % 16, upper);
    }
  }

  /** A text is a hash exactly when it is the hex of one, in whatever case, and that is what it
      decodes to. */
  lemma HashExactly(s: string, h: seq<nat>)
    requires IsDigest(h)
    ensures SameKey(s, HexOf(h, false)) <==> IsHash(s) && DecodeHash(s) == h
  {
    var t := HexOf(h, false);
    if SameKey(s, t) {
      forall k | 0 <= k < 40
        ensures IsHex(s[k]) && HexValue(s[k]) == HexValue(t[k])
      {
        assert Lower(s[k]) == Lower(t[k]) && IsHex(t[k]);
      }
      HashBack(h, false);
      assert forall i :: 0 <= i < 20 ==> DecodeHash(s)[i] == DecodeHash(t)[i];
    }
    if IsHash(s) && DecodeHash(s) == h {
      forall k | 0 <= k < 40
        ensures Lower(s[k]) == Lower(t[k])
      {
        DigitBack(s, h, k);
      }
    }
  }

  /** One digit of a decoded hash. */
  lemma DigitBack(s: string, h: seq<nat>, k: nat)
    requires IsHash(s) && IsDigest(h) && DecodeHash(s) == h && k < 40
    ensures Lower(s[k]) == HexDigit(if k % 2 == 0 then h[k / 2] / 16 else h[k / 2] % 16, false)
  {
    var i := k / 2;
    assert k == 2 * i || k == 2 * i + 1;
    TwoDigits(HexValue(s[2 * i]), HexValue(s[2 * i + 1]));
    LowerDigit(s[k]);
  }

  lemma TwoDigits(a: nat, b: nat)
    requires b < 16
    ensures (a * 16 + b) / 16 == a && (a * 16 + b) % 16 == b
  {
  }

  lemma LowerDigit(c: char)
    requires IsHex(c)
    ensures HexDigit(HexValue(c), false) == Lower(c)
  {
  }

  /** The text of a whole list of hashes. */
  function HexAll(hs: seq<seq<nat>>, upper: bool): (r: seq<string>)
    requires forall h :: h in hs ==> IsDigest(h)
    ensures |r| == |hs| && forall h :: h in r ==> IsHash(h)
  {
    seq(|hs|, k requires 0 <= k < |hs| => HexOf(hs[k], upper))
  }

  lemma {:induction false} HashesBack(hs: seq<seq<nat>>, upper: bool)
    requires forall h :: h in hs ==> IsDigest(h)
    ensures DecodeAll(HexAll(hs, upper)) == hs
    decreases |hs|
  {
    if hs != [] {
      var n := |hs| - 1;
      HashesBack(hs[..n], upper);
      HashBack(hs[n], upper);
      assert HexAll(hs, upper)[..n] == HexAll(hs[..n], upper);
      assert HexAll(hs, upper)[n] == HexOf(hs[n], upper);
      assert hs == hs[..n] + [hs[n]];
    }
  }

  function DecodeAll(hashes: seq<string>): seq<seq<nat>>
    requires forall h :: h in hashes ==> IsHash(h)
  {
    if hashes == [] then [] else DecodeAll(hashes[..|hashes| - 1]) + [DecodeHash(hashes[|hashes| - 1])]
  }

  // ------------------------------------------------------------ fields

  function Lower(c: char): char {
    if 'A' <= c <= 'Z' then (c as int + 32) as char else c
  }

  predicate SameKey(a: string, b: string) {
    |a| == |b| && forall i :: 0 <= i < |a| ==> Lower(a[i]) == Lower(b[i])
  }

  /** Where the first colon is, or the end. */
  function FindColon(s: string): (k: nat)
    ensures k <= |s| && (k < |s| ==> s[k] == ':') && forall i :: 0 <= i < k ==> s[i] != ':'
  {
    if s == [] || s[0] == ':' then 0 else 1 + FindColon(s[1..])
  }

  /** What has been read so far. */
  datatype Reading = Reading(port: Option<nat>, cookie: Option<string>, hashes: seq<seq<nat>>)

  function ReadField(r: Reading, key: string, value: string): Reading {
    if SameKey(key, "port") then
      r.(port := var p := ParsePort(value); if p == Some(0) then None else p)
    else if SameKey(key, "cookie") then r.(cookie := Some(value))
    else if SameKey(key, "infohash") then
      if IsHash(value) then r.(hashes := r.hashes + [DecodeHash(value)]) else r
    else r
  }

  function ReadLine(r: Reading, line: string): Reading {
    var k := FindColon(line);
    if k == |line| then r else ReadField(r, line[..k], Trim(line[k + 1..]))
  }

  function Fold<A, B>(f: (A, B) -> A, a: A, s: seq<B>): A {
    if s == [] then a else f(Fold(f, a, s[..|s| - 1]), s[|s| - 1])
  }

  function ReadLines(r: Reading, lines: seq<string>): Reading {
    Fold(ReadLine, r, lines)
  }

  lemma {:induction false} FoldConcat<A, B>(f: (A, B) -> A, a: A, s: seq<B>, t: seq<B>)
    ensures Fold(f, a, s + t) == Fold(f, Fold(f, a, s), t)
    decreases |t|
  {
    if t == [] {
      assert s + t == s;
    } else {
      FoldConcat(f, a, s, t[..|t| - 1]);
      assert (s + t)[..|s + t| - 1] == s + t[..|t| - 1];
    }
  }

  lemma FoldOne<A, B>(f: (A, B) -> A, a: A, b: B)
    ensures Fold(f, a, [b]) == f(a, b)
  {
    assert [b][..0] == [];
  }

  const NOTHING := Reading(None, None, [])

  function Parsed(text: string): Option<Announce> {
    var lines := Split(text);
    if !(HEAD <= lines[0]) then None
    else
      var r := ReadLines(NOTHING, lines[1..]);
      if r.port.None? then None else Some(Announce(r.port.value, r.cookie, r.hashes))
  }

  function Field(key: string, value: string): string {
    key + ":" + " " + value
  }

  function HashLines(hashes: seq<string>): (lines: seq<string>)
    ensures |lines| == |hashes| && forall i :: 0 <= i < |lines| ==> lines[i] == Field("Infohash", hashes[i])
  {
    seq(|hashes|, i requires 0 <= i < |hashes| => Field("Infohash", hashes[i]))
  }

  /** The lines of an announce. */
  function Message(port: nat, cookie: string, hashes: seq<string>): seq<string> {
    [HEAD, Field("Host", GROUP), Field("Port", Decimal(port))] + HashLines(hashes) + [Field("cookie", cookie), "", ""]
  }

  /** One announce for a list of info hashes. */
  method PrintAnnounce(port: nat, cookie: string, hashes: seq<string>) returns (msg: string)
    ensures msg == Lines(Message(port, cookie, hashes))
  {
    var lines := [HEAD, Field("Host", GROUP), Field("Port", Decimal(port))];
    msg := HEAD + CRLF + Field("Host", GROUP) + CRLF + Field("Port", Decimal(port)) + CRLF;
    LinesOfThree(HEAD, Field("Host", GROUP), Field("Port", Decimal(port)));
    assert lines + HashLines(hashes)[..0] == lines;
    var i := 0;
    while i < |hashes|
      invariant 0 <= i <= |hashes| && msg == Lines(lines + HashLines(hashes)[..i])
    {
      var before := lines + HashLines(hashes)[..i];
      LinesAppend(before, Field("Infohash", hashes[i]));
      assert lines + HashLines(hashes)[..i + 1] == before + [Field("Infohash", hashes[i])];
      msg := msg + (Field("Infohash", hashes[i]) + CRLF);
      i := i + 1;
    }
    var body := lines + HashLines(hashes);
    assert HashLines(hashes)[..i] == HashLines(hashes);
    LinesAppend(body, Field("cookie", cookie));
    LinesAppend(body + [Field("cookie", cookie)], "");
    LinesAppend(body + [Field("cookie", cookie)] + [""], "");
    msg := msg + (Field("cookie", cookie) + CRLF) + CRLF + CRLF;
    assert Message(port, cookie, hashes) == body + [Field("cookie", cookie)] + [""] + [""];
    assert "" + CRLF == CRLF;
  }

  lemma LinesOfThree(a: string, b: string, c: string)
    ensures Lines([a, b, c]) == a + CRLF + b + CRLF + c + CRLF
  {
    assert [a, b, c][1..] == [b, c] && [b, c][1..] == [c] && [c][1..] == [];
    assert Lines([c]) == c + CRLF;
    assert Lines([b, c]) == b + CRLF + (c + CRLF);
  }

  lemma {:induction false} LinesAppend(lines: seq<string>, line: string)
    ensures Lines(lines + [line]) == Lines(lines) + (line + CRLF)
  {
    if lines == [] {
      assert [line][1..] == [] && lines + [line] == [line];
    } else {
      LinesAppend(lines[1..], line);
      assert (lines + [line])[1..] == lines[1..] + [line];
    }
  }

  /** Reads one line into what is known so far. */
  method ReadInto(line: string, port0: Option<nat>, cookie0: Option<string>, hashes0: seq<seq<nat>>)
    returns (port: Option<nat>, cookie: Option<string>, hashes: seq<seq<nat>>)
    ensures Reading(port, cookie, hashes) == ReadLine(Reading(port0, cookie0, hashes0), line)
  {
    port, cookie, hashes := port0, cookie0, hashes0;
    var k := FindColon(line);
    if k == |line| {
      return;
    }
    var key, value := line[..k], Trim(line[k + 1..]);
    if SameKey(key, "port") {
      port := ParsePort(value);
      if port == Some(0) {
        port := None;
      }
    } else if SameKey(key, "cookie") {
      cookie := Some(value);
    } else if SameKey(key, "infohash") && IsHash(value) {
      hashes := hashes + [DecodeHash(value)];
    }
  }

  /** Reads an announce line by line; later port and cookie lines replace earlier ones. */
  method ParseAnnounce(text: string) returns (r: Option<Announce>)
    ensures r == Parsed(text)
  {
    var lines := Split(text);
    if !(HEAD <= lines[0]) {
      return None;
    }
    var port: Option<nat>, cookie: Option<string>, hashes: seq<seq<nat>> := None, None, [];
    var i := 1;
    while i < |lines|
      invariant 1 <= i <= |lines|
      invariant Reading(port, cookie, hashes) == ReadLines(NOTHING, lines[1..i])
    {
      ReadMore(NOTHING, lines[1..i], lines[i]);
      assert lines[1..i] + [lines[i]] == lines[1..i + 1];
      port, cookie, hashes := ReadInto(lines[i], port, cookie, hashes);
      i := i + 1;
    }
    assert lines[1..i] == lines[1..];
    if port.None? {
      return None;
    }
    return Some(Announce(port.value, cookie, hashes));
  }

  // ------------------------------------------------------------ round trip

  lemma NoReturnClean(s: string)
    requires '\r' !in s
    ensures NoBreak(s)
  {
  }

  lemma FieldClean(key: string, value: string)
    requires '\r' !in key && NoBreak(value)
    ensures NoBreak(Field(key, value))
  {
    NoReturnClean(key + ":" + " ");
    JoinClean(key + ":" + " ", value);
  }

  lemma FieldRead(r: Reading, key: string, value: string)
    requires ':' !in key && Trimmed(value)
    ensures ReadLine(r, Field(key, value)) == ReadField(r, key, value)
  {
    var line := Field(key, value);
    var k := FindColon(line);
    assert line[|key|] == ':' && line[..|key|] == key;
    assert k == |key|;
    assert line[k + 1..] == " " + value;
    TrimBlank(value);
  }

  lemma ReadMore(r: Reading, lines: seq<string>, line: string)
    ensures ReadLines(r, lines + [line]) == ReadLine(ReadLines(r, lines), line)
  {
    FoldConcat(ReadLine, r, lines, [line]);
    FoldOne(ReadLine, ReadLines(r, lines), line);
  }

  lemma HashTrimmed(h: string)
    requires IsHash(h)
    ensures Trimmed(h) && '\r' !in h
  {
    assert IsHex(h[0]) && IsHex(h[39]);
  }

  /** Which keys the parser tells apart. */
  lemma KeyNames()
    ensures SameKey("Port", "port") && SameKey("cookie", "cookie") && SameKey("Infohash", "infohash")
    ensures !SameKey("cookie", "port") && !SameKey("Infohash", "port") && !SameKey("Infohash", "cookie")
    ensures !SameKey("Host", "port") && !SameKey("Host", "cookie") && !SameKey("Host", "infohash")
  {
    assert Lower("Host"[0]) != Lower("port"[0]);
  }

  lemma HashRead(r: Reading, h: string)
    requires IsHash(h)
    ensures ReadLine(r, Field("Infohash", h)) == r.(hashes := r.hashes + [DecodeHash(h)])
  {
    HashTrimmed(h);
    FieldRead(r, "Infohash", h);
    KeyNames();
  }

  lemma MoreHashes(r: Reading, lines: seq<string>, line: string, hs: seq<seq<nat>>, h: seq<nat>)
    requires ReadLines(r, lines) == r.(hashes := r.hashes + hs)
    requires ReadLine(r.(hashes := r.hashes + hs), line) == r.(hashes := r.hashes + hs + [h])
    ensures ReadLines(r, lines + [line]) == r.(hashes := r.hashes + (hs + [h]))
  {
    ReadMore(r, lines, line);
    assert r.hashes + hs + [h] == r.hashes + (hs + [h]);
  }

  lemma LastHashLine(hashes: seq<string>)
    requires hashes != []
    ensures var n := |hashes| - 1;
            HashLines(hashes) == HashLines(hashes[..n]) + [Field("Infohash", hashes[n])]
  {
  }

  lemma {:induction false} HashesRead(r: Reading, hashes: seq<string>)
    requires forall h :: h in hashes ==> IsHash(h)
    ensures ReadLines(r, HashLines(hashes)) == r.(hashes := r.hashes + DecodeAll(hashes))
    decreases |hashes|
  {
    if hashes == [] {
      assert r.hashes + [] == r.hashes;
    } else {
      var front, last := hashes[..|hashes| - 1], hashes[|hashes| - 1];
      HashesRead(r, front);
      LastHashLine(hashes);
      assert last in hashes;
      HashRead(r.(hashes := r.hashes + DecodeAll(front)), last);
      MoreHashes(r, HashLines(front), Field("Infohash", last), DecodeAll(front), DecodeHash(last));
    }
  }

  lemma PortTrimmed(port: nat)
    ensures Trimmed(Decimal(port)) && '\r' !in Decimal(port)
  {
    var s := Decimal(port);
    assert IsDigit(s[0]) && IsDigit(s[|s| - 1]);
  }

  lemma GroupTrimmed()
    ensures Trimmed(GROUP) && '\r' !in GROUP && '\r' !in HEAD
  {
  }

  /** The fields of a message, read in order. */
  lemma MessageRead(port: nat, cookie: string, hashes: seq<string>)
    requires 0 < port <= 0xFFFF && Trimmed(cookie) && forall h :: h in hashes ==> IsHash(h)
    ensures ReadLines(NOTHING, Message(port, cookie, hashes)[1..] + [""]) ==
            Reading(Some(port), Some(cookie), DecodeAll(hashes))
  {
    var host, portLine, last := Field("Host", GROUP), Field("Port", Decimal(port)), Field("cookie", cookie);
    var hashed := HashLines(hashes);
    assert Message(port, cookie, hashes)[1..] + [""] == [host, portLine] + hashed + [last, "", "", ""];
    FoldConcat(ReadLine, NOTHING, [host, portLine] + hashed, [last, "", "", ""]);
    FoldConcat(ReadLine, NOTHING, [host, portLine], hashed);
    HeaderRead(port);
    HashesRead(NOTHING.(port := Some(port)), hashes);
    TailRead(Reading(Some(port), None, NOTHING.hashes + DecodeAll(hashes)), cookie);
  }

  lemma HeaderRead(port: nat)
    requires 0 < port <= 0xFFFF
    ensures ReadLines(NOTHING, [Field("Host", GROUP), Field("Port", Decimal(port))]) == NOTHING.(port := Some(port))
  {
    var host, portLine := Field("Host", GROUP), Field("Port", Decimal(port));
    assert ReadLine(NOTHING, host) == NOTHING by {
      GroupTrimmed();
      FieldRead(NOTHING, "Host", GROUP);
      KeyNames();
    }
    PortRead(NOTHING, port);
    ReadMore(NOTHING, [host], portLine);
    ReadMore(NOTHING, [], host);
    assert [host] + [portLine] == [host, portLine] && [] + [host] == [host];
  }

  lemma PortRead(r: Reading, port: nat)
    requires 0 < port <= 0xFFFF
    ensures ReadLine(r, Field("Port", Decimal(port))) == r.(port := Some(port))
  {
    PortTrimmed(port);
    FieldRead(r, "Port", Decimal(port));
    KeyNames();
    PortBack(port);
  }

  lemma TailRead(r: Reading, cookie: string)
    requires Trimmed(cookie)
    ensures ReadLines(r, [Field("cookie", cookie), "", "", ""]) == r.(cookie := Some(cookie))
  {
    var last := Field("cookie", cookie);
    var r' := r.(cookie := Some(cookie));
    assert ReadLine(r, last) == r' by {
      FieldRead(r, "cookie", cookie);
      KeyNames();
    }
    ReadMore(r, [], last);
    ReadMore(r, [last], "");
    ReadMore(r, [last, ""], "");
    ReadMore(r, [last, "", ""], "");
    assert [] + [last] == [last] && [last] + [""] == [last, ""];
    assert [last, ""] + [""] == [last, "", ""] && [last, "", ""] + [""] == [last, "", "", ""];
    assert ReadLine(r', "") == r';
  }

  lemma MessageClean(port: nat, cookie: string, hashes: seq<string>)
    requires NoBreak(cookie) && forall h :: h in hashes ==> IsHash(h)
    ensures forall l :: l in Message(port, cookie, hashes) ==> NoBreak(l)
  {
    GroupTrimmed();
    NoReturnClean(HEAD);
    NoReturnClean(GROUP);
    FieldClean("Host", GROUP);
    PortTrimmed(port);
    NoReturnClean(Decimal(port));
    FieldClean("Port", Decimal(port));
    FieldClean("cookie", cookie);
    forall i | 0 <= i < |hashes|
      ensures NoBreak(HashLines(hashes)[i])
    {
      assert hashes[i] in hashes;
      HashTrimmed(hashes[i]);
      NoReturnClean(hashes[i]);
      FieldClean("Infohash", hashes[i]);
    }
  }

  /** Trimmed, and without a line break. */
  ghost predicate Clean(cookie: Option<string>) {
    cookie.Some? ==> Trimmed(cookie.value) && NoBreak(cookie.value)
  }

  lemma LineClean(r: Reading, line: string)
    requires NoBreak(line) && Clean(r.cookie)
    ensures Clean(ReadLine(r, line).cookie)
  {
    var k := FindColon(line);
    if k < |line| {
      PartClean(line, k + 1, |line|);
      assert line[k + 1..|line|] == line[k + 1..];
      TrimIsTrimmed(line[k + 1..]);
    }
  }

  /** Cookies that come out of the parser are trimmed and hold no line break. */
  lemma {:induction false} CookieClean(r: Reading, lines: seq<string>)
    requires Clean(r.cookie) && forall l :: l in lines ==> NoBreak(l)
    ensures Clean(ReadLines(r, lines).cookie)
    decreases |lines|
  {
    if lines != [] {
      var n := |lines| - 1;
      CookieClean(r, lines[..n]);
      assert lines[n] in lines;
      LineClean(ReadLines(r, lines[..n]), lines[n]);
      ReadMore(r, lines[..n], lines[n]);
      assert lines == lines[..n] + [lines[n]];
    }
  }

  /** Parsing a printed announce gives back its port, cookie and decoded hashes exactly when the
      cookie has no line break and no surrounding blanks. */
  lemma RoundTrip(port: nat, cookie: string, hashes: seq<string>)
    requires 0 < port <= 0xFFFF && forall h :: h in hashes ==> IsHash(h)
    ensures Parsed(Lines(Message(port, cookie, hashes))) == Some(Announce(port, Some(cookie), DecodeAll(hashes))) <==>
            NoBreak(cookie) && Trimmed(cookie)
  {
    var message := Message(port, cookie, hashes);
    var text := Lines(message);
    if NoBreak(cookie) && Trimmed(cookie) {
      MessageClean(port, cookie, hashes);
      SplitLines(message);
      MessageRead(port, cookie, hashes);
      assert Split(text)[0] == HEAD;
      assert Split(text)[1..] == message[1..] + [""];
    }
    SplitClean(text);
    CookieClean(NOTHING, Split(text)[1..]);
  }

  /** The same for hashes as bytes: printed in hex of either case, they come back as they were. */
  lemma BytesBack(port: nat, cookie: string, hs: seq<seq<nat>>, upper: bool)
    requires 0 < port <= 0xFFFF
    requires forall h :: h in hs ==> IsDigest(h)
    ensures Parsed(Lines(Message(port, cookie, HexAll(hs, upper)))) == Some(Announce(port, Some(cookie), hs)) <==>
            NoBreak(cookie) && Trimmed(cookie)
  {
    HashesBack(hs, upper);
    RoundTrip(port, cookie, HexAll(hs, upper));
  }

  // ------------------------------------------------------------ repeated fields

  /** The line has this key, in either case, before its first colon. */
  predicate HasKey(line: string, key: string) {
    FindColon(line) < |line| && SameKey(line[..FindColon(line)], key)
  }

  /** What stands after the first colon. */
  function ValueOf(line: string): string
    requires FindColon(line) < |line|
  {
    Trim(line[FindColon(line) + 1..])
  }

  /** The last port line decides, even if it makes no sense or names port 0. */
  lemma {:induction false} LastPort(r: Reading, lines: seq<string>, k: nat)
    requires k < |lines| && HasKey(lines[k], "port") && forall j :: k < j < |lines| ==> !HasKey(lines[j], "port")
    ensures var p := ParsePort(ValueOf(lines[k]));
            ReadLines(r, lines).port == if p == Some(0) then None else p
    decreases |lines|
  {
    var n := |lines| - 1;
    assert lines == lines[..n] + [lines[n]];
    ReadMore(r, lines[..n], lines[n]);
    if k < n {
      LastPort(r, lines[..n], k);
    }
  }

  /** The last cookie line decides. */
  lemma {:induction false} LastCookie(r: Reading, lines: seq<string>, k: nat)
    requires k < |lines| && HasKey(lines[k], "cookie") && forall j :: k < j < |lines| ==> !HasKey(lines[j], "cookie")
    ensures ReadLines(r, lines).cookie == Some(ValueOf(lines[k]))
    decreases |lines|
  {
    var n := |lines| - 1;
    assert lines == lines[..n] + [lines[n]];
    ReadMore(r, lines[..n], lines[n]);
    if k < n {
      LastCookie(r, lines[..n], k);
    } else {
      PortIsNotCookie(lines[n]);
    }
  }

  lemma PortIsNotCookie(line: string)
    ensures !(HasKey(line, "port") && HasKey(line, "cookie")) && !(HasKey(line, "port") && HasKey(line, "infohash"))
    ensures !(HasKey(line, "cookie") && HasKey(line, "infohash"))
  {
  }

  /** The hashes of the lines that hold one. */
  function HashesIn(lines: seq<string>): seq<seq<nat>> {
    if lines == [] then []
    else
      var front, last := HashesIn(lines[..|lines| - 1]), lines[|lines| - 1];
      if HasKey(last, "infohash") && IsHash(ValueOf(last)) then front + [DecodeHash(ValueOf(last))] else front
  }

  /** Hash lines add up in order; those that are no hash are passed over. */
  lemma {:induction false} AllHashes(r: Reading, lines: seq<string>)
    ensures ReadLines(r, lines).hashes == r.hashes + HashesIn(lines)
    decreases |lines|
  {
    if lines != [] {
      var n := |lines| - 1;
      assert lines == lines[..n] + [lines[n]];
      ReadMore(r, lines[..n], lines[n]);
      AllHashes(r, lines[..n]);
      PortIsNotCookie(lines[n]);
    }
  }

  lemma FirstLine(text: string)
    ensures Split(text)[0] == text[..FindBreak(text, 0)]
  {
  }

  lemma PrefixOfPrefix(a: string, s: string, k: nat)
    requires k <= |s| && a <= s[..k]
    ensures a <= s
  {
    assert a == s[..k][..|a|] == s[..|a|];
  }

  /** A datagram that starts in any other way is no announce, whatever its fields say. */
  lemma HeadDecides(text: string)
    ensures Parsed(text).Some? ==> "BT-SEARCH * HTTP/1.1" <= text
  {
    FirstLine(text);
    if Parsed(text).Some? {
      PrefixOfPrefix(HEAD, text, FindBreak(text, 0));
    }
  }

  lemma HeaderText()
    ensures HEAD + CRLF == "BT-SEARCH * HTTP/1.1\r\n"
    ensures Field("Host", GROUP) + CRLF == "Host: 239.192.152.143:6771\r\n"
    ensures Field("Port", "6771") + CRLF == "Port: 6771\r\n"
  {
  }

  /** A printed announce without hashes, letter by letter. */
  lemma MessageText(cookie: string)
    ensures Lines(Message(6771, cookie, [])) ==
            "BT-SEARCH * HTTP/1.1\r\n" + "Host: 239.192.152.143:6771\r\n" + "Port: 6771\r\n" +
            ("cookie: " + cookie + "\r\n") + "\r\n" + "\r\n"
  {
    PortText();
    var a, b, c, d := HEAD, Field("Host", GROUP), Field("Port", "6771"), Field("cookie", cookie);
    assert Message(6771, cookie, []) == [a, b, c] + [d] + [""] + [""];
    LinesOfThree(a, b, c);
    LinesAppend([a, b, c], d);
    LinesAppend([a, b, c] + [d], "");
    LinesAppend([a, b, c] + [d] + [""], "");
    HeaderText();
    assert d + CRLF == "cookie: " + cookie + "\r\n" && "" + CRLF == "\r\n";
    assert a + CRLF + b + CRLF + c + CRLF == (a + CRLF) + (b + CRLF) + (c + CRLF);
  }
}
