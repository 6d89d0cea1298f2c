/** The wire forms of the lock protocol: the nine-line owner and claim records,
    the canonical symlink target, and the claim directory name.  A byte is
    written as the character with its code. */
module LockRecords {
  import opened Wrappers

  type Byte = c: char | c as int < 256

  type Bytes = seq<Byte>

  const HEADER: Bytes := "cgraf78 checkout mutation lock v1"
  const PROC_STAT_KIND: Bytes := "70726f632d73746174"
  const PS_LSTART_KIND: Bytes := "70732d6c7374617274"

  datatype Role = Owner | Claim {
    function WireHex(): Bytes { if Owner? then "6f776e6572" else "636c61696d" }
  }

  datatype Record = Record(role: Role, nonce: Bytes, ownerNonce: Option<Bytes>, pid: Bytes, hostHex: Bytes,
                           startKindHex: Bytes, startTokenHex: Bytes, checkoutHex: Bytes)

  datatype RecordError = Oversized | Framing | LineCount | Header | FieldMissing | FieldText | Identity | NonceOrPid
                       | OwnerNamesOwner | ClaimNamesNoOwner | HostOrToken | Backend | Checkout

  // ----- hex -----

  predicate HexDigit(c: Byte) { '0' <= c <= '9' || 'a' <= c <= 'f' }

  function DigitOf(n: nat): (c: Byte)
    requires n < 16
    ensures HexDigit(c)
  {
    if n < 10 then ('0' as int + n) as char else ('a' as int + n - 10) as char
  }

  function NibbleOf(c: Byte): (n: nat)
    requires HexDigit(c)
    ensures n < 16
  {
    if c <= '9' then c as int - '0' as int else c as int - 'a' as int + 10
  }

  function EncodeHex(bytes: Bytes): (r: Bytes)
    ensures |r| == 2 * |bytes| && forall i :: 0 <= i < |r| ==> HexDigit(r[i])
  {
    if bytes == [] then []
    else [DigitOf(bytes[0] as int / 16), DigitOf(bytes[0] as int % 16)] + EncodeHex(bytes[1..])
  }

  predicate ValidHex(value: Bytes, maxLen: nat) {
    0 < |value| <= maxLen && |value| % 2 == 0 && forall i :: 0 <= i < |value| ==> HexDigit(value[i])
  }

  predicate ValidNonce(value: Bytes) { |value| == 32 && forall i :: 0 <= i < |value| ==> HexDigit(value[i]) }

  predicate Digit(c: Byte) { '0' <= c <= '9' }

  predicate ValidPid(value: Bytes) {
    value != [] && '1' <= value[0] <= '9' && forall i :: 0 <= i < |value| ==> Digit(value[i])
  }

  lemma DigitsAreNibbles(n: nat, c: Byte)
    requires n < 16 && HexDigit(c)
    ensures DigitOf(n) == c <==> n == NibbleOf(c)
  {
  }

  /** The byte two digits encode. */
  lemma PairIsOnto(hi: Byte, lo: Byte) returns (code: Byte)
    requires HexDigit(hi) && HexDigit(lo)
    ensures DigitOf(code as int / 16) == hi && DigitOf(code as int % 16) == lo
  {
    var n := 16 * NibbleOf(hi) + NibbleOf(lo);
    code := n as char;
    assert n / 16 == NibbleOf(hi) && n % 16 == NibbleOf(lo);
    DigitsAreNibbles(n / 16, hi);
    DigitsAreNibbles(n % 16, lo);
  }

  lemma PairIsInjective(a: Byte, b: Byte)
    requires DigitOf(a as int / 16) == DigitOf(b as int / 16)
    requires DigitOf(a as int % 16) == DigitOf(b as int % 16)
    ensures a == b
  {
    DigitsAreNibbles(a as int / 16, DigitOf(b as int / 16));
    DigitsAreNibbles(b as int / 16, DigitOf(b as int / 16));
    DigitsAreNibbles(a as int % 16, DigitOf(b as int % 16));
    DigitsAreNibbles(b as int % 16, DigitOf(b as int % 16));
    assert a as int == b as int;
  }

  /** Every even-length hex text encodes exactly one byte string, so two checkout
      paths never share a record and every nonce stands for 128 bits. */
  lemma {:induction false} HexIsOnto(text: Bytes) returns (bytes: Bytes)
    requires |text| % 2 == 0 && forall i :: 0 <= i < |text| ==> HexDigit(text[i])
    ensures EncodeHex(bytes) == text
  {
    if text == [] {
      bytes := [];
    } else {
      var rest := HexIsOnto(text[2..]);
      var code := PairIsOnto(text[0], text[1]);
      bytes := [code] + rest;
      assert text == [text[0], text[1]] + text[2..];
    }
  }

  lemma {:induction false} HexIsInjective(a: Bytes, b: Bytes)
    requires EncodeHex(a) == EncodeHex(b)
    ensures a == b
  {
    var x, y := EncodeHex(a), EncodeHex(b);
    if a == [] || b == [] {
      assert |x| == 2 * |a| && |y| == 2 * |b|;
    } else {
      assert x[0] == y[0] && x[1] == y[1] && x[2..] == EncodeHex(a[1..]) && y[2..] == EncodeHex(b[1..]);
      PairIsInjective(a[0], b[0]);
      HexIsInjective(a[1..], b[1..]);
      assert a == [a[0]] + a[1..] && b == [b[0]] + b[1..];
    }
  }

  // ----- UTF-8 -----

  predicate Trailing(c: Byte) { 0x80 <= c as int <= 0xBF }

  /** The length of the well-formed UTF-8 character a text begins with, or 0. */
  function CharLength(s: Bytes): (n: nat)
    ensures n <= |s|
  {
    if s == [] then 0
    else
      var a := s[0] as int;
      if a <= 0x7F then 1
      else if |s| < 2 || !Trailing(s[1]) then 0
      else
        var b := s[1] as int;
        if 0xC2 <= a <= 0xDF then 2
        else if |s| < 3 || !Trailing(s[2]) then 0
        else if 0xE0 <= a <= 0xEF && (a == 0xE0 ==> 0xA0 <= b) && (a == 0xED ==> b <= 0x9F) then 3
        else if |s| < 4 || !Trailing(s[3]) then 0
        else if 0xF0 <= a <= 0xF4 && (a == 0xF0 ==> 0x90 <= b) && (a == 0xF4 ==> b <= 0x8F) then 4
        else 0
  }

  predicate Utf8(s: Bytes) { s == [] || (CharLength(s) != 0 && Utf8(s[CharLength(s)..])) }

  predicate Ascii(s: Bytes) { forall i :: 0 <= i < |s| ==> s[i] as int < 0x80 }

  lemma {:induction false} AsciiIsUtf8(s: Bytes)
    requires Ascii(s)
    ensures Utf8(s)
  {
    if s != [] { AsciiIsUtf8(s[1..]); }
  }

  lemma {:induction false} Utf8Concat(s: Bytes, t: Bytes)
    requires Utf8(s) && Utf8(t)
    ensures Utf8(s + t)
  {
    if s == [] {
      assert s + t == t;
    } else {
      var n := CharLength(s);
      Utf8Concat(s[n..], t);
      assert CharLength(s + t) == n;
      assert (s + t)[n..] == s[n..] + t;
    }
  }

  // ----- lines -----

  /** The pieces between the newlines, one more than there are newlines. */
  function Split(s: Bytes): (lines: seq<Bytes>)
    ensures |lines| > 0
  {
    if s == [] then [[]]
    else if s[0] == '\n' then [[]] + Split(s[1..])
    else
      var rest := Split(s[1..]);
      [[s[0]] + rest[0]] + rest[1..]
  }

  /** Every line followed by a newline. */
  function Lines(lines: seq<Bytes>): Bytes {
    if lines == [] then [] else lines[0] + "\n" + Lines(lines[1..])
  }

  predicate OneLine(s: Bytes) { '\n' !in s }

  lemma LinesOfEmptyFirst(rest: seq<Bytes>)
    ensures Lines([[]] + rest) == "\n" + Lines(rest)
  {
    assert ([[]] + rest)[1..] == rest;
  }

  lemma LinesOfLonger(c: Byte, rest: seq<Bytes>)
    requires rest != []
    ensures Lines([[c] + rest[0]] + rest[1..]) == [c] + Lines(rest)
  {
    var lines := [[c] + rest[0]] + rest[1..];
    assert lines[1..] == rest[1..];
    assert [c] + (rest[0] + "\n" + Lines(rest[1..])) == ([c] + rest[0]) + "\n" + Lines(rest[1..]);
  }

  lemma {:induction false} LinesOfSplit(s: Bytes)
    ensures Lines(Split(s)) == s + "\n"
    ensures forall i :: 0 <= i < |Split(s)| ==> OneLine(Split(s)[i])
  {
    if s == [] {
      LinesOfEmptyFirst([]);
    } else {
      LinesOfSplit(s[1..]);
      var rest := Split(s[1..]);
      assert s == [s[0]] + s[1..];
      if s[0] == '\n' { LinesOfEmptyFirst(rest); } else { LinesOfLonger(s[0], rest); }
    }
  }

  /** Splitting after a piece of text: the newlines of the piece cost lines. */
  lemma {:induction false} SplitAfter(s: Bytes, t: Bytes)
    ensures |Split(s + "\n" + t)| > |Split(t)|
    ensures |Split(s + "\n" + t)| == 1 + |Split(t)| <==> OneLine(s)
    ensures OneLine(s) ==> Split(s + "\n" + t) == [s] + Split(t)
  {
    var all := s + "\n" + t;
    if s == [] {
      assert all[1..] == t;
    } else {
      SplitAfter(s[1..], t);
      assert all[1..] == s[1..] + "\n" + t;
      assert s == [s[0]] + s[1..];
      assert OneLine(s) <==> s[0] != '\n' && OneLine(s[1..]);
    }
  }

  lemma {:induction false} SplitOfLines(lines: seq<Bytes>)
    requires lines != []
    ensures var s := Lines(lines);
      && |s| > 0 && s[|s| - 1] == '\n'
      && |Split(s[..|s| - 1])| >= |lines|
      && (|Split(s[..|s| - 1])| == |lines| <==> forall i :: 0 <= i < |lines| ==> OneLine(lines[i]))
      && ((forall i :: 0 <= i < |lines| ==> OneLine(lines[i])) ==> Split(s[..|s| - 1]) == lines)
  {
    var s, rest := Lines(lines), lines[1..];
    if rest == [] {
      assert Lines(rest) == [] && s == lines[0] + "\n" + [];
      assert s[..|s| - 1] == lines[0];
      SplitAlone(lines[0]);
      assert lines == [lines[0]];
    } else {
      SplitOfLines(rest);
      var t := Lines(rest);
      assert s == (lines[0] + "\n") + t;
      assert s[..|s| - 1] == lines[0] + "\n" + t[..|t| - 1];
      SplitAfter(lines[0], t[..|t| - 1]);
      assert lines == [lines[0]] + rest;
      assert (forall i :: 0 <= i < |lines| ==> OneLine(lines[i]))
        <==> OneLine(lines[0]) && forall i :: 0 <= i < |rest| ==> OneLine(rest[i]);
    }
  }

  lemma {:induction false} SplitAlone(s: Bytes)
    ensures |Split(s)| == 1 <==> OneLine(s)
    ensures OneLine(s) ==> Split(s) == [s]
  {
    if s != [] {
      SplitAlone(s[1..]);
      assert s == [s[0]] + s[1..];
    }
  }

  // ----- framing -----

  const NAMES: seq<Bytes> :=
    ["role=", "nonce=", "owner_nonce=", "pid=", "host_hex=", "start_kind_hex=", "start_token_hex=", "checkout_hex="]

  function Field(line: Bytes, name: Bytes): Result<Bytes, RecordError> {
    if !(name <= line) then Err(FieldMissing)
    else if !Utf8(line[|name|..]) then Err(FieldText)
    else Ok(line[|name|..])
  }

  /** The fields of consecutive lines; the first line that has none is the error. */
  function Fields(lines: seq<Bytes>, names: seq<Bytes>): (r: Result<seq<Bytes>, RecordError>)
    requires |lines| == |names|
    ensures r.Ok? ==> |r.value| == |names|
  {
    if lines == [] then Ok([])
    else
      var first :- Field(lines[0], names[0]);
      var rest :- Fields(lines[1..], names[1..]);
      Ok([first] + rest)
  }

  function Labelled(names: seq<Bytes>, values: seq<Bytes>): (lines: seq<Bytes>)
    requires |names| == |values|
    ensures |lines| == |names|
  {
    if names == [] then [] else [names[0] + values[0]] + Labelled(names[1..], values[1..])
  }

  /** The eight field values of a record text: framing, line count, header, fields. */
  function Unframe(bytes: Bytes): (r: Result<seq<Bytes>, RecordError>)
    ensures r.Ok? ==> |r.value| == 8
  {
    if '\0' in bytes || bytes == [] || bytes[|bytes| - 1] != '\n' then Err(Framing) else
    var lines := Split(bytes[..|bytes| - 1]);
    if |lines| != 9 then Err(LineCount)
    else if lines[0] != HEADER then Err(Header)
    else Fields(lines[1..], NAMES)
  }

  function Frame(values: seq<Bytes>): Bytes
    requires |values| == 8
  {
    Lines([HEADER] + Labelled(NAMES, values))
  }

  lemma {:induction false} FieldsAreLabelled(lines: seq<Bytes>, names: seq<Bytes>)
    requires |lines| == |names| && Fields(lines, names).Ok?
    ensures Labelled(names, Fields(lines, names).value) == lines
  {
    if lines != [] {
      FieldsAreLabelled(lines[1..], names[1..]);
      assert lines[0] == names[0] + lines[0][|names[0]|..];
    }
  }

  lemma {:induction false} LabelledHasOnlyItsFields(names: seq<Bytes>, values: seq<Bytes>)
    requires |names| == |values| && Fields(Labelled(names, values), names).Ok?
    ensures Fields(Labelled(names, values), names).value == values
  {
    if names != [] {
      assert (names[0] + values[0])[|names[0]|..] == values[0];
      LabelledHasOnlyItsFields(names[1..], values[1..]);
    }
  }

  /** Printable ASCII survives framing, line splitting and field extraction. */
  predicate Plain(s: Bytes) { forall i :: 0 <= i < |s| ==> 0x20 <= s[i] as int < 0x7F }

  predicate AllPlain(texts: seq<Bytes>) { forall i :: 0 <= i < |texts| ==> Plain(texts[i]) }

  lemma {:induction false} PlainLabelled(names: seq<Bytes>, values: seq<Bytes>)
    requires |names| == |values| && AllPlain(names) && AllPlain(values)
    ensures AllPlain(Labelled(names, values)) && Fields(Labelled(names, values), names).Ok?
  {
    if names != [] {
      PlainLabelled(names[1..], values[1..]);
      assert (names[0] + values[0])[|names[0]|..] == values[0];
      assert Plain(names[0]) && Plain(values[0]);
      AsciiIsUtf8(values[0]);
    }
  }

  lemma {:induction false} LinesWithoutZero(lines: seq<Bytes>)
    requires AllPlain(lines)
    ensures '\0' !in Lines(lines)
  {
    if lines != [] {
      LinesWithoutZero(lines[1..]);
      assert Plain(lines[0]);
    }
  }

  lemma FirstNamesArePlain()
    ensures Plain("role=") && Plain("nonce=") && Plain("owner_nonce=") && Plain("pid=")
  {
  }

  lemma LastNamesArePlain()
    ensures Plain("host_hex=") && Plain("start_kind_hex=") && Plain("start_token_hex=") && Plain("checkout_hex=")
  {
  }

  lemma NamesArePlain()
    ensures |NAMES| == 8 && AllPlain(NAMES)
  {
    FirstNamesArePlain();
    LastNamesArePlain();
    forall i | 0 <= i < 8
      ensures Plain(NAMES[i])
    {
    }
  }

  lemma NamesLength()
    ensures |NAMES| == 8 && Total(NAMES) == 80
  {
    TotalOfEight(NAMES);
  }

  function Total(texts: seq<Bytes>): nat { if texts == [] then 0 else |texts[0]| + Total(texts[1..]) }

  lemma TotalFrom(t: seq<Bytes>, i: nat)
    requires i < |t|
    ensures Total(t[i..]) == |t[i]| + Total(t[i + 1..])
  {
    assert t[i..][1..] == t[i + 1..];
  }

  lemma TotalOfEight(t: seq<Bytes>)
    requires |t| == 8
    ensures Total(t) == |t[0]| + |t[1]| + |t[2]| + |t[3]| + |t[4]| + |t[5]| + |t[6]| + |t[7]|
  {
    for i := 8 downto 0
      invariant Total(t[i..]) == (if i <= 7 then |t[7]| else 0) + (if i <= 6 then |t[6]| else 0)
        + (if i <= 5 then |t[5]| else 0) + (if i <= 4 then |t[4]| else 0) + (if i <= 3 then |t[3]| else 0)
        + (if i <= 2 then |t[2]| else 0) + (if i <= 1 then |t[1]| else 0) + (if i <= 0 then |t[0]| else 0)
    {
      TotalFrom(t, i);
    }
    assert t[0..] == t;
  }

  /** Every text that unframes is the frame of its values. */
  lemma UnframedIsFramed(bytes: Bytes)
    requires Unframe(bytes).Ok?
    ensures bytes == Frame(Unframe(bytes).value)
  {
    var body := bytes[..|bytes| - 1];
    LinesOfSplit(body);
    assert bytes == body + "\n";
    var lines := Split(body);
    FieldsAreLabelled(lines[1..], NAMES);
    assert lines == [HEADER] + lines[1..];
  }

  /** A frame yields its own values or nothing. */
  lemma FramedIsItself(values: seq<Bytes>)
    requires |values| == 8 && Unframe(Frame(values)).Ok?
    ensures Unframe(Frame(values)).value == values
  {
    var lines := [HEADER] + Labelled(NAMES, values);
    SplitOfLines(lines);
    assert lines[1..] == Labelled(NAMES, values);
    LabelledHasOnlyItsFields(NAMES, values);
  }

  lemma HeaderIsPlain()
    ensures Plain(HEADER)
  {
  }

  /** Plain lines come back from their text. */
  lemma PlainLines(lines: seq<Bytes>)
    requires lines != [] && AllPlain(lines)
    ensures var s := Lines(lines); s != [] && s[|s| - 1] == '\n' && '\0' !in s && Split(s[..|s| - 1]) == lines
  {
    assert forall i :: 0 <= i < |lines| ==> Plain(lines[i]) && OneLine(lines[i]);
    SplitOfLines(lines);
    LinesWithoutZero(lines);
  }

  lemma PlainUnframes(values: seq<Bytes>)
    requires |values| == 8 && AllPlain(values)
    ensures Unframe(Frame(values)).Ok?
  {
    HeaderIsPlain();
    NamesArePlain();
    PlainLabelled(NAMES, values);
    var lines := [HEADER] + Labelled(NAMES, values);
    assert lines[1..] == Labelled(NAMES, values);
    PlainLines(lines);
  }

  // ----- records -----

  function OrEmpty(value: Option<Bytes>): Bytes { if value.Some? then value.value else [] }

  /** What the path of a record file and its checkout promise about it. */
  datatype Expected = Expected(role: Role, nonce: Bytes, ownerNonce: Option<Bytes>, checkout: Bytes)

  /** The checks of `parse_record` on the extracted fields, in its order. */
  function CheckFields(v: seq<Bytes>, e: Expected): Result<Record, RecordError>
    requires |v| == 8
  {
    if v[0] != e.role.WireHex() || v[1] != e.nonce || v[2] != OrEmpty(e.ownerNonce) then Err(Identity)
    else if !ValidNonce(v[1]) || !ValidPid(v[3]) then Err(NonceOrPid)
    else if e.role.Owner? && v[2] != [] then Err(OwnerNamesOwner)
    else if e.role.Claim? && !ValidNonce(v[2]) then Err(ClaimNamesNoOwner)
    else if !ValidHex(v[4], 512) || !ValidHex(v[6], 2048) then Err(HostOrToken)
    else if v[5] != PROC_STAT_KIND && v[5] != PS_LSTART_KIND then Err(Backend)
    else if !ValidHex(v[7], 8192) || v[7] != EncodeHex(e.checkout) then Err(Checkout)
    else Ok(Record(e.role, v[1], if v[2] == [] then None else Some(v[2]), v[3], v[4], v[5], v[6], v[7]))
  }

  function ParseRecord(bytes: Bytes, e: Expected): Result<Record, RecordError> {
    var values :- Unframe(bytes);
    CheckFields(values, e)
  }

  const MAX_RECORD := 16384

  /** `load_record` refuses oversized files before it parses. */
  function LoadRecord(bytes: Bytes, e: Expected): Result<Record, RecordError> {
    if |bytes| > MAX_RECORD then Err(Oversized) else ParseRecord(bytes, e)
  }

  function Values(r: Record): seq<Bytes> {
    [r.role.WireHex(), r.nonce, OrEmpty(r.ownerNonce), r.pid, r.hostHex, r.startKindHex, r.startTokenHex, r.checkoutHex]
  }

  function Print(r: Record): Bytes { Frame(Values(r)) }

  /** The identity check of `write_record`; the other fields go out unchecked. */
  predicate Writable(r: Record) {
    && ValidNonce(r.nonce) && ValidPid(r.pid)
    && match r.role
       case Owner => r.ownerNonce.None?
       case Claim => r.ownerNonce.Some? && ValidNonce(r.ownerNonce.value)
  }

  function WriteRecord(r: Record): Option<Bytes> { if Writable(r) then Some(Print(r)) else None }

  predicate InBounds(r: Record) {
    && Writable(r)
    && ValidHex(r.hostHex, 512) && ValidHex(r.startTokenHex, 2048) && ValidHex(r.checkoutHex, 8192)
    && (r.startKindHex == PROC_STAT_KIND || r.startKindHex == PS_LSTART_KIND)
  }

  /** The record is the one this path and checkout ask for. */
  predicate Answers(r: Record, e: Expected) {
    && r.role == e.role && r.nonce == e.nonce && OrEmpty(r.ownerNonce) == OrEmpty(e.ownerNonce)
    && r.checkoutHex == EncodeHex(e.checkout)
  }

  /** Every accepted byte string is exactly the printing of its result, and the
      result is in bounds and bound to its path and checkout. */
  lemma AcceptedIsPrinted(bytes: Bytes, e: Expected)
    requires ParseRecord(bytes, e).Ok?
    ensures var r := ParseRecord(bytes, e).value; bytes == Print(r) && InBounds(r) && Answers(r, e)
  {
    UnframedIsFramed(bytes);
    var v, r := Unframe(bytes).value, ParseRecord(bytes, e).value;
    assert Values(r) == v;
  }

  lemma WordsArePlain(r: Record)
    requires InBounds(r)
    ensures Plain(r.startKindHex) && Plain(r.role.WireHex())
  {
  }

  lemma FieldsArePlain(r: Record)
    requires InBounds(r)
    ensures AllPlain(Values(r))
  {
    WordsArePlain(r);
    assert Plain(r.nonce) && Plain(OrEmpty(r.ownerNonce)) && Plain(r.pid);
    assert Plain(r.hostHex) && Plain(r.startTokenHex) && Plain(r.checkoutHex);
  }

  /** A written record is read back, as itself and nothing else, exactly when the
      unchecked fields are in bounds and it is the one asked for. */
  lemma WrittenIsRead(r: Record, e: Expected)
    requires Writable(r)
    ensures ParseRecord(Print(r), e).Ok? <==> InBounds(r) && Answers(r, e)
    ensures ParseRecord(Print(r), e).Ok? ==> ParseRecord(Print(r), e) == Ok(r)
  {
    if ParseRecord(Print(r), e).Ok? {
      FramedIsItself(Values(r));
      AcceptedIsPrinted(Print(r), e);
    } else if InBounds(r) && Answers(r, e) {
      FieldsArePlain(r);
      PlainUnframes(Values(r));
      FramedIsItself(Values(r));
    }
  }

  /** One byte string answers at most one expectation: no record can be moved to
      another generation, another role or another checkout. */
  lemma RecordBindsItsPath(bytes: Bytes, e: Expected, f: Expected)
    requires ParseRecord(bytes, e).Ok? && ParseRecord(bytes, f).Ok?
    ensures e.role == f.role && e.nonce == f.nonce && OrEmpty(e.ownerNonce) == OrEmpty(f.ownerNonce)
    ensures e.checkout == f.checkout
  {
    assert e.role.WireHex() == f.role.WireHex();
    HexIsInjective(e.checkout, f.checkout);
  }

  lemma {:induction false} LinesLength(names: seq<Bytes>, values: seq<Bytes>)
    requires |names| == |values|
    ensures |Lines(Labelled(names, values))| == Total(names) + Total(values) + |names|
  {
    if names != [] {
      LinesLength(names[1..], values[1..]);
      assert Labelled(names, values)[1..] == Labelled(names[1..], values[1..]);
    }
  }

  /** The size limit of the reader never cuts off a record in bounds whose process
      identifier has at most 5418 digits. */
  lemma InBoundsFits(r: Record)
    requires InBounds(r) && |r.pid| <= 5418
    ensures |Print(r)| <= MAX_RECORD
  {
    var v := Values(r);
    NamesLength();
    TotalOfEight(v);
    LinesLength(NAMES, v);
    assert ([HEADER] + Labelled(NAMES, v))[1..] == Labelled(NAMES, v);
  }

  /** What `write_record` writes, `load_record` reads back as itself and as nothing
      else, exactly when the record is in bounds, fits the reader's size limit and
      is the one asked for; up to 5418 digits of process identifier, it fits. */
  lemma WriteThenLoad(r: Record, e: Expected)
    requires WriteRecord(r).Some?
    ensures var p := LoadRecord(WriteRecord(r).value, e);
      && (p.Ok? <==> InBounds(r) && Answers(r, e) && |Print(r)| <= MAX_RECORD)
      && (p.Ok? ==> p == Ok(r))
      && (|r.pid| <= 5418 ==> (p.Ok? <==> InBounds(r) && Answers(r, e)))
  {
    WrittenIsRead(r, e);
    if InBounds(r) && |r.pid| <= 5418 { InBoundsFits(r); }
  }

  /** What is loaded is what writing its result would write. */
  lemma LoadThenWrite(bytes: Bytes, e: Expected)
    requires LoadRecord(bytes, e).Ok?
    ensures WriteRecord(LoadRecord(bytes, e).value) == Some(bytes)
  {
    AcceptedIsPrinted(bytes, e);
  }

  // ----- names -----

  /** A fresh identifier is the hex of sixteen random bytes. */
  function NonceOf(random: Bytes): (nonce: Bytes)
    requires |random| == 16
    ensures ValidNonce(nonce)
  {
    EncodeHex(random)
  }

  function CanonicalTarget(name: Bytes, nonce: Bytes): Option<Bytes> {
    if ValidNonce(nonce) then Some("." + name + ".install.lock.owner." + nonce + "/.") else None
  }

  predicate EndsWith(s: Bytes, suffix: Bytes) { |suffix| <= |s| && s[|s| - |suffix|..] == suffix }

  /** The prefix and the suffix of an accepted target never overlap, so the slice
      between them exists. */
  lemma TargetSlice(name: Bytes, target: Bytes)
    requires "." + name + ".install.lock.owner." <= target && EndsWith(target, "/.")
    ensures |"." + name + ".install.lock.owner."| + 2 <= |target|
  {
    var prefix: Bytes := "." + name + ".install.lock.owner.";
    assert prefix[|prefix| - 1] == '.' && prefix[|prefix| - 2] == 'r';
    assert target[|target| - 2] == '/' && target[|target| - 1] == '.';
    assert target[|prefix| - 1] == '.' && target[|prefix| - 2] == 'r';
  }

  function OwnerNonceFromTarget(name: Bytes, target: Bytes): Option<Bytes> {
    var prefix: Bytes := "." + name + ".install.lock.owner.";
    if !(prefix <= target) || !EndsWith(target, "/.") then None
    else
      TargetSlice(name, target);
      var nonce := target[|prefix|..|target| - 2];
      if Utf8(nonce) && ValidNonce(nonce) then Some(nonce) else None
  }

  /** Target and generation determine each other. */
  lemma TargetsInvert(name: Bytes, target: Bytes, nonce: Bytes)
    ensures OwnerNonceFromTarget(name, target) == Some(nonce) <==> CanonicalTarget(name, nonce) == Some(target)
  {
    var prefix: Bytes := "." + name + ".install.lock.owner.";
    if OwnerNonceFromTarget(name, target) == Some(nonce) {
      TargetSlice(name, target);
      assert target == prefix + nonce + "/.";
    }
    if CanonicalTarget(name, nonce) == Some(target) {
      assert target[..|prefix|] == prefix;
      assert target[|target| - 2..] == "/.";
      assert target[|prefix|..|target| - 2] == nonce;
      AsciiIsUtf8(nonce);
    }
  }

  datatype ClaimNames = ClaimNames(owner: Bytes, claimant: Bytes)

  datatype NameError = NotText | WrongPrefix | NoSecondNonce | BadNonce

  function ClaimPrefix(name: Bytes): Bytes { "." + name + ".install.lock.claim." }

  function OwnerClaimPrefix(name: Bytes, owner: Bytes): Bytes { ClaimPrefix(name) + owner + "." }

  function ClaimDirName(name: Bytes, c: ClaimNames): Bytes { OwnerClaimPrefix(name, c.owner) + c.claimant }

  /** The position of the first dot, or the length. */
  function FirstDot(s: Bytes): (i: nat)
    ensures i <= |s| && '.' !in s[..i] && (i < |s| ==> s[i] == '.')
  {
    if s == [] || s[0] == '.' then 0
    else
      var i := 1 + FirstDot(s[1..]);
      assert s[..i] == [s[0]] + s[1..][..i - 1];
      i
  }

  /** The two nonces of a claim name, after its prefix. */
  function PairOf(rest: Bytes): Result<ClaimNames, NameError> {
    var i := FirstDot(rest);
    if i == |rest| then Err(NoSecondNonce)
    else if !ValidNonce(rest[..i]) || !ValidNonce(rest[i + 1..]) || '.' in rest[i + 1..] then Err(BadNonce)
    else Ok(ClaimNames(rest[..i], rest[i + 1..]))
  }

  function ClaimName(name: Bytes, base: Bytes): Result<ClaimNames, NameError> {
    if !Utf8(base) then Err(NotText)
    else if !(ClaimPrefix(name) <= base) then Err(WrongPrefix)
    else PairOf(base[|ClaimPrefix(name)|..])
  }

  lemma {:induction false} SplitOnce(a: Bytes, b: Bytes)
    requires '.' !in a
    ensures var s := a + "." + b; FirstDot(s) == |a| && s[..|a|] == a && s[|a| + 1..] == b
  {
    if a != [] {
      SplitOnce(a[1..], b);
      assert (a + "." + b)[1..] == a[1..] + "." + b;
    }
  }

  lemma PairsInvert(rest: Bytes, c: ClaimNames)
    ensures PairOf(rest) == Ok(c) <==> ValidNonce(c.owner) && ValidNonce(c.claimant) && rest == c.owner + "." + c.claimant
  {
    if PairOf(rest) == Ok(c) { assert rest == c.owner + "." + c.claimant; }
    if ValidNonce(c.owner) { SplitOnce(c.owner, c.claimant); }
  }

  /** The name of a claim directory and the pair it binds determine each other. */
  lemma ClaimNamesInvert(name: Bytes, base: Bytes, c: ClaimNames)
    requires Utf8(name)
    ensures ClaimName(name, base) == Ok(c)
      <==> ValidNonce(c.owner) && ValidNonce(c.claimant) && base == ClaimDirName(name, c)
  {
    var prefix, rest := ClaimPrefix(name), c.owner + "." + c.claimant;
    assert ClaimDirName(name, c) == prefix + rest;
    if prefix <= base {
      assert base == prefix + base[|prefix|..];
      PairsInvert(base[|prefix|..], c);
    }
    if ValidNonce(c.owner) && ValidNonce(c.claimant) { DirNameIsText(name, rest); }
  }

  lemma DirNameIsText(name: Bytes, rest: Bytes)
    requires Utf8(name) && Ascii(rest)
    ensures Utf8(ClaimPrefix(name) + rest)
  {
    var front: Bytes, back: Bytes := ".", ".install.lock.claim.";
    AsciiIsUtf8(front);
    AsciiIsUtf8(back);
    AsciiIsUtf8(rest);
    Utf8Concat(front, name);
    Utf8Concat(front + name, back);
    Utf8Concat(front + name + back, rest);
  }

  /** Scanning by the prefix of one generation meets exactly the claims on it. */
  lemma PrefixSelectsGeneration(name: Bytes, c: ClaimNames, owner: Bytes)
    requires ValidNonce(c.owner) && ValidNonce(owner)
    ensures OwnerClaimPrefix(name, owner) <= ClaimDirName(name, c) <==> owner == c.owner
  {
    var n, base := |ClaimPrefix(name)|, ClaimDirName(name, c);
    assert base[n..n + 32] == c.owner;
    if OwnerClaimPrefix(name, owner) <= base {
      assert OwnerClaimPrefix(name, owner)[n..n + 32] == owner;
    }
  }
}
