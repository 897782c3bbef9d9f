/**
 * The text layer of filesync: percent-quoted tokens, hexadecimal payloads,
 * decimal numbers, whitespace splitting and newline framing.
 *
 * A C++ `std::string` is a sequence of octets; here it is a `string` whose
 * characters satisfy `Octets` wherever that matters.
 */
module Text {
  import opened Sequences
  import opened Wrappers

  type byte = b: int | 0 <= b < 256

  const TWO_32: nat := 0x1_0000_0000
  const TWO_64: nat := 0x1_0000_0000_0000_0000

  ghost predicate Octets(s: string) {
    forall i :: 0 <= i < |s| ==> s[i] as int < 256
  }

  /** Puts the part decoded so far in front of the decoding of the rest. */
  function After<T>(done: seq<T>, rest: Result<seq<T>>): Result<seq<T>> {
    match rest
    case Ok(value) => Ok(done + value)
    case Err => Err
  }

  lemma {:induction false} AfterAssociates<T>(a: seq<T>, b: seq<T>, rest: Result<seq<T>>)
    ensures After(a, After(b, rest)) == After(a + b, rest)
    ensures After([], rest) == rest
  {
    if rest.Ok? {
      assert a + (b + rest.value) == (a + b) + rest.value;
      assert [] + rest.value == rest.value;
    }
  }

  // ---------------------------------------------------------------- hex digits

  function FromHex(c: char): int {
    if '0' <= c <= '9' then c as int - '0' as int
    else if 'a' <= c <= 'f' then c as int - 'a' as int + 10
    else if 'A' <= c <= 'F' then c as int - 'A' as int + 10
    else -1
  }

  function UpperDigit(n: nat): char
    requires n < 16
  {
    if n < 10 then ('0' as int + n) as char else ('A' as int + n - 10) as char
  }

  function LowerDigit(n: nat): char
    requires n < 16
  {
    if n < 10 then ('0' as int + n) as char else ('a' as int + n - 10) as char
  }

  // ---------------------------------------------------------------- quoting

  predicate IsPlain(c: char) {
    'a' <= c <= 'z' || 'A' <= c <= 'Z' || '0' <= c <= '9' || c == '-' || c == '_' || c == '.' || c == '/'
  }

  function QuoteChar(c: char): string {
    if IsPlain(c) then [c] else ['%', UpperDigit(c as int / 16 % 16), UpperDigit(c as int % 16)]
  }

  function Quote(value: string): string {
    if value == [] then [] else QuoteChar(value[0]) + Quote(value[1..])
  }

  function Unquote(value: string): Result<string>
    decreases |value|
  {
    if value == [] then Ok([])
    else if value[0] == '%' then
      if |value| < 3 || FromHex(value[1]) < 0 || FromHex(value[2]) < 0 then Err
      else After([(FromHex(value[1]) * 16 + FromHex(value[2])) as char], Unquote(value[3..]))
    else After([value[0]], Unquote(value[1..]))
  }

  method QuoteToken(value: string) returns (out: string)
    requires Octets(value)
    ensures out == Quote(value)
    ensures Unquote(out) == Ok(value)
  {
    out := "";
    var i := 0;
    while i < |value|
      invariant 0 <= i <= |value|
      invariant out == Quote(value[..i])
    {
      var c := value[i];
      QuoteAppend(value[..i], c);
      PrefixSnoc(value, i);
      OctetQuoted(c);
      if IsPlain(c) {
        out := out + [c];
      } else {
        out := out + ['%', UpperDigit(c as int / 16), UpperDigit(c as int % 16)];
      }
      i := i + 1;
    }
    PrefixAll(value);
    UnquoteQuote(value);
  }

  lemma {:induction false} OctetQuoted(c: char)
    requires c as int < 256
    ensures QuoteChar(c) == if IsPlain(c) then [c] else ['%', UpperDigit(c as int / 16), UpperDigit(c as int % 16)]
  {
  }

  lemma {:induction false} QuoteAppend(value: string, c: char)
    ensures Quote(value + [c]) == Quote(value) + QuoteChar(c)
  {
    if value == [] {
      EmptyConcat(QuoteChar(c));
      EmptyConcat([c]);
    } else {
      QuoteAppend(value[1..], c);
      TailConcat(value, [c]);
      Associate(QuoteChar(value[0]), Quote(value[1..]), QuoteChar(c));
    }
  }

  method UnquoteToken(value: string) returns (r: Result<string>)
    ensures r == Unquote(value)
  {
    var out := "";
    var i := 0;
    AfterAssociates("", "", Unquote(value));
    assert value[0..] == value;
    while i < |value|
      invariant 0 <= i <= |value|
      invariant Unquote(value) == After(out, Unquote(value[i..]))
    {
      ghost var tail := value[i..];
      if value[i] == '%' && (i + 2 >= |value| || FromHex(value[i + 1]) < 0 || FromHex(value[i + 2]) < 0) {
        return Err;
      }
      if value[i] == '%' {
        assert tail[1] == value[i + 1] && tail[2] == value[i + 2] && tail[3..] == value[i + 3..];
        var c := (FromHex(value[i + 1]) * 16 + FromHex(value[i + 2])) as char;
        AfterAssociates(out, [c], Unquote(value[i + 3..]));
        out := out + [c];
        i := i + 3;
      } else {
        assert tail[1..] == value[i + 1..];
        AfterAssociates(out, [value[i]], Unquote(value[i + 1..]));
        out := out + [value[i]];
        i := i + 1;
      }
    }
    assert out + [] == out;
    return Ok(out);
  }

  /** The percent encoding loses nothing: unquoting undoes quoting on every octet string. */
  lemma {:induction false} UnquoteQuote(value: string)
    requires Octets(value)
    ensures Unquote(Quote(value)) == Ok(value)
  {
    if value != [] {
      UnquoteQuote(value[1..]);
      UnquoteQuoteChar(value[0], Quote(value[1..]));
      assert [value[0]] + value[1..] == value;
    }
  }

  lemma {:induction false} UnquoteQuoteChar(c: char, tail: string)
    requires c as int < 256
    ensures Unquote(QuoteChar(c) + tail) == After([c], Unquote(tail))
  {
    if IsPlain(c) {
      var text := [c] + tail;
      assert text[0] == c && text[1..] == tail;
    } else {
      OctetQuoted(c);
      DigitsRead(c as int / 16);
      DigitsRead(c as int % 16);
      UnquoteEscape(UpperDigit(c as int / 16), UpperDigit(c as int % 16), tail);
    }
  }

  lemma {:induction false} DigitsRead(n: nat)
    requires n < 16
    ensures FromHex(UpperDigit(n)) == n && FromHex(LowerDigit(n)) == n
  {
  }

  lemma {:induction false} UnquoteEscape(hi: char, lo: char, tail: string)
    requires FromHex(hi) >= 0 && FromHex(lo) >= 0
    ensures Unquote(['%', hi, lo] + tail) == After([(FromHex(hi) * 16 + FromHex(lo)) as char], Unquote(tail))
  {
    var text := ['%', hi, lo] + tail;
    assert text[0] == '%' && text[1] == hi && text[2] == lo && text[3..] == tail;
  }

  // ---------------------------------------------------------------- whitespace

  predicate IsSpace(c: char) {
    c == ' ' || 9 <= c as int <= 13
  }

  /** A word survives `operator>>` whole: it is non-empty and holds no white space. */
  ghost predicate Word(s: string) {
    s != [] && forall i :: 0 <= i < |s| ==> !IsSpace(s[i])
  }

  lemma {:induction false} QuoteIsWord(value: string)
    requires Octets(value)
    ensures value != [] ==> Word(Quote(value))
    ensures value == [] ==> Quote(value) == []
    ensures forall i :: 0 <= i < |Quote(value)| ==> !IsSpace(Quote(value)[i])
  {
    if value != [] {
      QuoteIsWord(value[1..]);
    }
  }

  function WordLength(s: string): (k: nat)
    ensures k <= |s|
    ensures forall i :: 0 <= i < k ==> !IsSpace(s[i])
    ensures k < |s| ==> IsSpace(s[k])
  {
    if s == [] || IsSpace(s[0]) then 0 else 1 + WordLength(s[1..])
  }

  function Split(line: string): seq<string>
    decreases |line|
  {
    if line == [] then []
    else if IsSpace(line[0]) then Split(line[1..])
    else
      var k := WordLength(line);
      [line[..k]] + Split(line[k..])
  }

  function Join(words: seq<string>): string {
    if words == [] then "" else if |words| == 1 then words[0] else words[0] + " " + Join(words[1..])
  }

  method SplitLine(line: string) returns (parts: seq<string>)
    ensures parts == Split(line)
  {
    parts := [];
    var i := 0;
    PrefixAll(line);
    EmptyConcat(Split(line));
    while i < |line|
      invariant 0 <= i <= |line|
      invariant Split(line) == parts + Split(line[i..])
    {
      if IsSpace(line[i]) {
        assert line[i..][1..] == line[i + 1..];
        i := i + 1;
      } else {
        var end := ReadWord(line, i);
        Associate(parts, [line[i..end]], Split(line[end..]));
        parts := parts + [line[i..end]];
        i := end;
      }
    }
    EmptyConcat(parts);
  }

  method ReadWord(line: string, start: nat) returns (end: nat)
    requires start < |line| && !IsSpace(line[start])
    ensures start < end <= |line| && Split(line[start..]) == [line[start..end]] + Split(line[end..])
  {
    end := start + 1;
    while end < |line| && !IsSpace(line[end])
      invariant start < end <= |line|
      invariant forall j :: start <= j < end ==> !IsSpace(line[j])
    {
      end := end + 1;
    }
    assert line[start..] == line[start..end] + line[end..];
    WordThenSpace(line[start..end], line[end..]);
  }

  lemma {:induction false} WordThenSpace(word: string, rest: string)
    requires Word(word)
    requires rest != [] ==> IsSpace(rest[0])
    ensures Split(word + rest) == [word] + Split(rest)
  {
    var line := word + rest;
    assert !IsSpace(line[0]);
    assert rest != [] ==> line[|word|] == rest[0];
    assert WordLength(line) == |word|;
    assert line[..|word|] == word && line[|word|..] == rest;
  }

  /** Splitting a line built from words separated by single spaces gives back exactly those words. */
  lemma {:induction false} SplitJoin(words: seq<string>)
    requires forall i :: 0 <= i < |words| ==> Word(words[i])
    ensures Split(Join(words)) == words
  {
    if words != [] {
      if |words| == 1 {
        WordThenSpace(words[0], "");
        EmptyConcat(words[0]);
      } else {
        SplitJoin(words[1..]);
        SplitFirst(words[0], Join(words[1..]));
      }
    }
  }

  lemma {:induction false} SplitFirst(word: string, rest: string)
    requires Word(word)
    ensures Split(word + " " + rest) == [word] + Split(rest)
  {
    var spaced := " " + rest;
    assert spaced[1..] == rest;
    WordThenSpace(word, spaced);
    Associate(word, " ", rest);
  }

  lemma {:induction false} JoinTwo(a: string, b: string)
    ensures Join([a, b]) == a + " " + b
  {
    assert [a, b][1..] == [b];
  }

  // ---------------------------------------------------------------- decimal numbers

  predicate IsDigit(c: char) {
    '0' <= c <= '9'
  }

  function Decimal(n: nat): string {
    if n < 10 then [('0' as int + n) as char] else Decimal(n / 10) + [('0' as int + n % 10) as char]
  }

  function DigitsValue(text: string): nat
    requires forall i :: 0 <= i < |text| ==> IsDigit(text[i])
  {
    if text == [] then 0
    else
      assert IsDigit(text[|text| - 1]);
      DigitsValue(text[..|text| - 1]) * 10 + (text[|text| - 1] as int - '0' as int)
  }

  /** `number`: a non-empty run of decimal digits whose value fits in 64 bits. */
  function Number(text: string): Result<nat> {
    if text != [] && (forall i :: 0 <= i < |text| ==> IsDigit(text[i])) && DigitsValue(text) < TWO_64
    then Ok(DigitsValue(text))
    else Err
  }

  lemma {:induction false} DecimalDigits(n: nat)
    ensures Decimal(n) != []
    ensures forall i :: 0 <= i < |Decimal(n)| ==> IsDigit(Decimal(n)[i])
    ensures DigitsValue(Decimal(n)) == n
  {
    if n >= 10 {
      DecimalDigits(n / 10);
      assert Decimal(n)[..|Decimal(n)| - 1] == Decimal(n / 10);
    } else {
      assert Decimal(n)[..0] == [];
    }
  }

  lemma {:induction false} NumberDecimal(n: nat)
    ensures Word(Decimal(n)) && Octets(Decimal(n))
    ensures Number(Decimal(n)) == if n < TWO_64 then Ok(n) else Err
  {
    DecimalDigits(n);
  }

  // ---------------------------------------------------------------- hexadecimal payloads

  function HexEncode(data: seq<byte>): string {
    if data == [] then [] else [LowerDigit(data[0] / 16), LowerDigit(data[0] % 16)] + HexEncode(data[1..])
  }

  function HexDecode(text: string): Result<seq<byte>>
    decreases |text|
  {
    if text == [] then Ok([])
    else if |text| < 2 || FromHex(text[0]) < 0 || FromHex(text[1]) < 0 then Err
    else After([FromHex(text[0]) * 16 + FromHex(text[1])], HexDecode(text[2..]))
  }

  method DecodeHex(text: string) returns (r: Result<seq<byte>>)
    ensures r == HexDecode(text)
  {
    if |text| % 2 != 0 {
      OddHexRejected(text);
      return Err;
    }
    var out: seq<byte> := [];
    var i := 0;
    AfterAssociates<byte>([], [], HexDecode(text));
    assert text[0..] == text;
    while i < |text|
      invariant 0 <= i <= |text| && (|text| - i) % 2 == 0
      invariant HexDecode(text) == After(out, HexDecode(text[i..]))
    {
      var hi, lo := FromHex(text[i]), FromHex(text[i + 1]);
      assert text[i..][1] == text[i + 1] && text[i..][2..] == text[i + 2..];
      if hi < 0 || lo < 0 {
        return Err;
      }
      AfterAssociates(out, [hi * 16 + lo], HexDecode(text[i + 2..]));
      out := out + [hi * 16 + lo];
      i := i + 2;
    }
    assert out + [] == out;
    return Ok(out);
  }

  lemma {:induction false} OddHexRejected(text: string)
    requires |text| % 2 != 0
    ensures HexDecode(text) == Err
    decreases |text|
  {
    if |text| > 2 {
      OddHexRejected(text[2..]);
    }
  }

  lemma {:induction false} HexRoundTrip(data: seq<byte>)
    ensures HexDecode(HexEncode(data)) == Ok(data)
    ensures |HexEncode(data)| == 2 * |data|
    ensures data != [] ==> Word(HexEncode(data))
    ensures forall i :: 0 <= i < |HexEncode(data)| ==> !IsSpace(HexEncode(data)[i])
  {
    if data != [] {
      HexRoundTrip(data[1..]);
      assert HexEncode(data)[2..] == HexEncode(data[1..]);
      assert data == [data[0]] + data[1..];
    }
  }

  // ---------------------------------------------------------------- safe paths

  /** Where a path component ends: at a slash or at the end of the path. */
  predicate EndsComponent(path: string, i: nat) {
    i == |path| || (i < |path| && path[i] == '/')
  }

  /**
   * A relative path without drive letters, backslashes or control characters, none of
   * whose components is empty or ends in a dot or a space (so none is "." or "..").
   */
  predicate SafePath(path: string) {
    && (forall i :: 0 <= i < |path| ==> 32 <= path[i] as int < 256 && path[i] as int != 127)
    && (forall i :: 0 <= i < |path| ==> path[i] != '\\' && path[i] != ':')
    && (forall i :: 0 <= i <= |path| && EndsComponent(path, i) ==> i > 0 && path[i - 1] !in "/. ")
  }

  method IsSafeRelativePath(path: string) returns (safe: bool)
    requires Octets(path)
    ensures safe == SafePath(path)
  {
    if path == [] || path[0] == '/' {
      assert EndsComponent(path, 0);
      return false;
    }
    if '\\' in path || ':' in path {
      return false;
    }
    for i := 0 to |path|
      invariant forall j :: 0 <= j < i ==> 32 <= path[j] as int && path[j] as int != 127
    {
      if path[i] as int < 32 || path[i] as int == 127 {
        return false;
      }
    }
    var start := 0;
    while start <= |path|
      invariant 0 <= start <= |path| && (start == 0 || path[start - 1] == '/')
      invariant forall i :: 0 <= i < start && EndsComponent(path, i) ==> i > 0 && path[i - 1] !in "/. "
    {
      var end := start;
      while end < |path| && path[end] != '/'
        invariant start <= end <= |path|
        invariant forall i :: start <= i < end ==> path[i] != '/'
      {
        end := end + 1;
      }
      var part := path[start..end];
      assert EndsComponent(path, end);
      if part == "" || part == "." || part == ".." || part[|part| - 1] == '.' || part[|part| - 1] == ' ' {
        assert part != "" ==> part[|part| - 1] == path[end - 1];
        return false;
      }
      assert part[|part| - 1] == path[end - 1];
      if end == |path| {
        break;
      }
      start := end + 1;
    }
    return true;
  }

  // ---------------------------------------------------------------- newline framing

  /** What is left in the buffer once every complete line has been taken out. */
  function Leftover(text: string): string {
    if text == [] || text[|text| - 1] == '\n' then ""
    else Leftover(text[..|text| - 1]) + [text[|text| - 1]]
  }

  /** The complete lines of a byte stream, in order. */
  function Frames(text: string): seq<string> {
    if text == [] then []
    else if text[|text| - 1] == '\n' then Frames(text[..|text| - 1]) + [Leftover(text[..|text| - 1])]
    else Frames(text[..|text| - 1])
  }

  ghost predicate OneLine(s: string) {
    forall i :: 0 <= i < |s| ==> s[i] != '\n'
  }

  /** What a line writer puts on the wire. */
  function Wire(lines: seq<string>): string {
    if lines == [] then "" else lines[0] + "\n" + Wire(lines[1..])
  }

  /** Framing is insensitive to where a packet boundary falls. */
  lemma {:induction false} FramesSplitAnywhere(a: string, b: string)
    ensures Frames(a + b) == Frames(a) + Frames(Leftover(a) + b)
    ensures Leftover(a + b) == Leftover(Leftover(a) + b)
  {
    if b == [] {
      LeftoverIsOneLine(a);
      OneLineStays(Leftover(a));
      EmptyConcat(a);
      EmptyConcat(Leftover(a));
      EmptyConcat(Frames(a));
    } else {
      var b', c := b[..|b| - 1], b[|b| - 1];
      FramesSplitAnywhere(a, b');
      InitConcat(a, b);
      InitConcat(Leftover(a), b);
      Associate(Frames(a), Frames(Leftover(a) + b'), [Leftover(a + b')]);
    }
  }

  lemma {:induction false} LeftoverIsOneLine(text: string)
    ensures OneLine(Leftover(text))
  {
    if text != [] && text[|text| - 1] != '\n' {
      LeftoverIsOneLine(text[..|text| - 1]);
    }
  }

  lemma {:induction false} OneLineStays(line: string)
    requires OneLine(line)
    ensures Leftover(line) == line
    ensures Frames(line) == []
    ensures Frames(line + "\n") == [line] && Leftover(line + "\n") == ""
  {
    if line != [] {
      OneLineStays(line[..|line| - 1]);
      assert line[..|line| - 1] + [line[|line| - 1]] == line;
    }
    assert (line + "\n")[..|line|] == line;
  }

  lemma {:induction false} FrameFirst(line: string, rest: string)
    requires OneLine(line)
    ensures Frames(line + "\n" + rest) == [line] + Frames(rest)
    ensures Leftover(line + "\n" + rest) == Leftover(rest)
  {
    OneLineStays(line);
    FramesSplitAnywhere(line + "\n", rest);
    assert "" + rest == rest;
  }

  lemma {:induction false} FramesOfWire(lines: seq<string>, rest: string)
    requires forall i :: 0 <= i < |lines| ==> OneLine(lines[i])
    ensures Frames(Wire(lines) + rest) == lines + Frames(rest)
    ensures Leftover(Wire(lines) + rest) == Leftover(rest)
  {
    if lines == [] {
      assert Wire(lines) + rest == rest;
    } else {
      FramesOfWire(lines[1..], rest);
      FrameFirst(lines[0], Wire(lines[1..]) + rest);
      assert Wire(lines) + rest == lines[0] + "\n" + (Wire(lines[1..]) + rest);
    }
  }

  lemma {:induction false} WireAppend(a: seq<string>, b: seq<string>)
    ensures Wire(a + b) == Wire(a) + Wire(b)
  {
    if a == [] {
      EmptyConcat(b);
      EmptyConcat(Wire(b));
    } else {
      WireAppend(a[1..], b);
      TailConcat(a, b);
      Associate(a[0] + "\n", Wire(a[1..]), Wire(b));
    }
  }
}
