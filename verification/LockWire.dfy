/** The wire forms of the lock spelled out: hex digit by digit, records line by line
    as one text; and that the parser accepts exactly these texts. */
module LockWire {
  import opened Wrappers
  import opened LockRecords

  // ----- hex -----

  const DIGITS: Bytes := "0123456789abcdef"

  lemma DigitsInOrder(n: nat)
    requires n < 16
    ensures DigitOf(n) == DIGITS[n]
  {
  }

  /** Each byte gives its high digit, then its low one. */
  lemma {:induction false} HexByDigits(b: Bytes, i: nat)
    requires i < |b|
    ensures EncodeHex(b)[2 * i] == "0123456789abcdef"[b[i] as int / 16]
    ensures EncodeHex(b)[2 * i + 1] == "0123456789abcdef"[b[i] as int % 16]
  {
    if i == 0 {
      DigitsInOrder(b[0] as int / 16);
      DigitsInOrder(b[0] as int % 16);
    } else {
      HexByDigits(b[1..], i - 1);
      assert EncodeHex(b)[2..] == EncodeHex(b[1..]);
    }
  }

  /** The byte of two digits. */
  function ByteOf(hi: Byte, lo: Byte): Byte
    requires HexDigit(hi) && HexDigit(lo)
  {
    (16 * NibbleOf(hi) + NibbleOf(lo)) as char
  }

  /** The bytes that a text is the hex of. */
  function DecodeHex(v: Bytes): (b: Option<Bytes>)
    ensures b.Some? ==> 2 * |b.value| == |v|
  {
    if v == [] then Some([])
    else if |v| < 2 || !HexDigit(v[0]) || !HexDigit(v[1]) || DecodeHex(v[2..]).None? then None
    else Some([ByteOf(v[0], v[1])] + DecodeHex(v[2..]).value)
  }

  lemma DigitsOfByte(hi: Byte, lo: Byte)
    requires HexDigit(hi) && HexDigit(lo)
    ensures DigitOf(ByteOf(hi, lo) as int / 16) == hi && DigitOf(ByteOf(hi, lo) as int % 16) == lo
  {
    var n := 16 * NibbleOf(hi) + NibbleOf(lo);
    assert n / 16 == NibbleOf(hi) && n % 16 == NibbleOf(lo);
    DigitsAreNibbles(n / 16, hi);
    DigitsAreNibbles(n % 16, lo);
  }

  lemma {:induction false} DecodedEncodes(v: Bytes)
    requires DecodeHex(v).Some?
    ensures EncodeHex(DecodeHex(v).value) == v
  {
    if v != [] {
      DecodedEncodes(v[2..]);
      DigitsOfByte(v[0], v[1]);
      assert v == [v[0], v[1]] + v[2..];
    }
  }

  lemma {:induction false} HexDecodes(v: Bytes)
    ensures DecodeHex(v).Some? <==> |v| % 2 == 0 && forall i :: 0 <= i < |v| ==> HexDigit(v[i])
  {
    if |v| >= 2 {
      HexDecodes(v[2..]);
      assert v == [v[0], v[1]] + v[2..];
    }
  }

  /** Decoding undoes encoding, and nothing else. */
  lemma DecodeInverts(v: Bytes, b: Bytes)
    ensures DecodeHex(v) == Some(b) <==> EncodeHex(b) == v
  {
    if DecodeHex(v).Some? { DecodedEncodes(v); }
    if EncodeHex(b) == v {
      HexDecodes(v);
      HexIsInjective(DecodeHex(v).value, b);
    }
  }

  /** The hex of so many bytes. */
  predicate IsHex(v: Bytes, lo: nat, hi: nat) { DecodeHex(v).Some? && lo <= |DecodeHex(v).value| <= hi }

  lemma HexBounds(v: Bytes, max: nat)
    ensures ValidHex(v, 2 * max) <==> IsHex(v, 1, max)
  {
    HexDecodes(v);
  }

  lemma NonceBounds(v: Bytes)
    ensures ValidNonce(v) <==> IsHex(v, 16, 16)
  {
    HexDecodes(v);
  }

  // ----- process identifiers -----

  /** A positive number in decimal, of any size. */
  predicate IsPositive(s: Bytes) {
    s != [] && s[0] in "123456789" && forall i :: 0 <= i < |s| ==> s[i] in "0123456789"
  }

  lemma DigitIsListed(c: Byte)
    ensures Digit(c) <==> c in "0123456789"
    ensures '1' <= c <= '9' <==> c in "123456789"
  {
  }

  lemma PidIsPositive(s: Bytes)
    ensures ValidPid(s) <==> IsPositive(s)
  {
    forall c: Byte ensures (Digit(c) <==> c in "0123456789") && ('1' <= c <= '9' <==> c in "123456789") { DigitIsListed(c); }
  }

  // ----- records -----

  /** One line of a record. */
  function Line(key: Bytes, value: Bytes): Bytes { key + value + "\n" }

  function LastLines(r: Record): Bytes {
    Line("host_hex=", r.hostHex) + (Line("start_kind_hex=", r.startKindHex)
      + (Line("start_token_hex=", r.startTokenHex) + Line("checkout_hex=", r.checkoutHex)))
  }

  /** A record as one text. */
  function TextOf(r: Record): Bytes {
    var header: Bytes := "cgraf78 checkout mutation lock v1";
    var role: Bytes := if r.role.Owner? then "6f776e6572" else "636c61696d";
    var owner: Bytes := if r.ownerNonce.Some? then r.ownerNonce.value else [];
    Line(header, []) + (Line("role=", role) + (Line("nonce=", r.nonce) + (Line("owner_nonce=", owner)
      + (Line("pid=", r.pid) + LastLines(r)))))
  }

  /** The text of the labelled lines from line `i` on. */
  function From(names: seq<Bytes>, v: seq<Bytes>, i: nat): Bytes
    requires i <= |names| == |v|
  {
    Lines(Labelled(names[i..], v[i..]))
  }

  lemma LinesFrom(names: seq<Bytes>, v: seq<Bytes>, i: nat)
    requires i < |names| == |v|
    ensures From(names, v, i) == Line(names[i], v[i]) + From(names, v, i + 1)
  {
    assert names[i..][1..] == names[i + 1..] && v[i..][1..] == v[i + 1..];
    var lines := Labelled(names[i..], v[i..]);
    assert lines[0] == names[i] + v[i] && lines[1..] == Labelled(names[i + 1..], v[i + 1..]);
  }

  lemma LastLinesAre(r: Record)
    ensures From(NAMES, Values(r), 4) == LastLines(r)
  {
    var v := Values(r);
    LinesFrom(NAMES, v, 4);
    LinesFrom(NAMES, v, 5);
    LinesFrom(NAMES, v, 6);
    LinesFrom(NAMES, v, 7);
    assert From(NAMES, v, 8) == [] && Line("checkout_hex=", v[7]) + [] == Line("checkout_hex=", v[7]);
  }

  /** What is written is this text, line by line. */
  lemma PrintedText(r: Record)
    ensures Print(r) == TextOf(r)
  {
    var v := Values(r);
    LinesFrom(NAMES, v, 0);
    LinesFrom(NAMES, v, 1);
    LinesFrom(NAMES, v, 2);
    LinesFrom(NAMES, v, 3);
    LastLinesAre(r);
    assert NAMES[0..] == NAMES && v[0..] == v;
    assert ([HEADER] + Labelled(NAMES, v))[1..] == Labelled(NAMES, v);
    assert Line(HEADER, []) == HEADER + "\n";
  }

  predicate IsKind(v: Bytes) { v == "70726f632d73746174" || v == "70732d6c7374617274" }

  /** The field bounds of a record, in terms of bytes and numbers. */
  predicate Sound(r: Record) {
    && IsHex(r.nonce, 16, 16) && IsPositive(r.pid)
    && (if r.role.Owner? then r.ownerNonce.None? else r.ownerNonce.Some? && IsHex(r.ownerNonce.value, 16, 16))
    && IsHex(r.hostHex, 1, 256) && IsKind(r.startKindHex) && IsHex(r.startTokenHex, 1, 1024)
    && IsHex(r.checkoutHex, 1, 4096)
  }

  lemma InBoundsIsSound(r: Record)
    ensures InBounds(r) <==> Sound(r)
  {
    NonceBounds(r.nonce);
    PidIsPositive(r.pid);
    if r.ownerNonce.Some? { NonceBounds(r.ownerNonce.value); }
    HexBounds(r.hostHex, 256);
    HexBounds(r.startTokenHex, 1024);
    HexBounds(r.checkoutHex, 4096);
  }

  /** The parser accepts a byte string as a record if and only if it is the text of
      that record, the record is sound, and it has the role, the nonces and the
      checkout that were asked for. */
  lemma AcceptsExactly(bytes: Bytes, e: Expected, r: Record)
    ensures ParseRecord(bytes, e) == Ok(r) <==>
      && bytes == TextOf(r) && Sound(r)
      && r.role == e.role && r.nonce == e.nonce && OrEmpty(r.ownerNonce) == OrEmpty(e.ownerNonce)
      && r.checkoutHex == EncodeHex(e.checkout)
  {
    PrintedText(r);
    InBoundsIsSound(r);
    if ParseRecord(bytes, e) == Ok(r) { AcceptedIsPrinted(bytes, e); }
    if InBounds(r) { WrittenIsRead(r, e); }
  }

  // ----- refusals -----

  function Newlines(s: Bytes): nat { if s == [] then 0 else (if s[0] == '\n' then 1 else 0) + Newlines(s[1..]) }

  lemma {:induction false} SplitCounts(s: Bytes)
    ensures |Split(s)| == 1 + Newlines(s)
  {
    if s != [] { SplitCounts(s[1..]); }
  }

  lemma {:induction false} NewlinesBeforeLast(s: Bytes)
    requires s != []
    ensures Newlines(s) == Newlines(s[..|s| - 1]) + if s[|s| - 1] == '\n' then 1 else 0
  {
    if |s| > 1 {
      NewlinesBeforeLast(s[1..]);
      assert s[..|s| - 1][1..] == s[1..][..|s| - 2];
    }
  }

  /** The text begins with this line. */
  predicate BeginsWith(bytes: Bytes, line: Bytes) { line + "\n" <= bytes }

  lemma {:induction false} FirstPiece(s: Bytes, line: Bytes)
    requires OneLine(line) && Newlines(s) > 0
    ensures Split(s)[0] == line <==> BeginsWith(s, line)
  {
    if line == [] {
      assert BeginsWith(s, line) <==> s[0] == '\n';
    } else if s[0] != '\n' {
      FirstPiece(s[1..], line[1..]);
      assert s == [s[0]] + s[1..] && line == [line[0]] + line[1..];
      assert BeginsWith(s, line) <==> s[0] == line[0] && BeginsWith(s[1..], line[1..]);
    }
  }

  lemma HeaderIsOneLine()
    ensures HEADER == "cgraf78 checkout mutation lock v1" && OneLine(HEADER)
  {
  }

  predicate OfShape(error: RecordError) { error.Oversized? || error.Framing? || error.LineCount? || error.Header? }

  lemma {:induction false} FieldsHaveShape(lines: seq<Bytes>, names: seq<Bytes>)
    requires |lines| == |names| && Fields(lines, names).Err?
    ensures !OfShape(Fields(lines, names).error)
  {
    if lines != [] && Field(lines[0], names[0]).Ok? { FieldsHaveShape(lines[1..], names[1..]); }
  }

  predicate Framed(bytes: Bytes) { bytes != [] && bytes[|bytes| - 1] == '\n' && '\0' !in bytes }

  lemma HeaderLine(bytes: Bytes)
    requires Framed(bytes)
    ensures |Split(bytes[..|bytes| - 1])| == Newlines(bytes)
    ensures Newlines(bytes) > 1 ==> (Split(bytes[..|bytes| - 1])[0] == HEADER <==> BeginsWith(bytes, HEADER))
  {
    var body := bytes[..|bytes| - 1];
    SplitCounts(body);
    NewlinesBeforeLast(bytes);
    if Newlines(bytes) > 1 {
      HeaderIsOneLine();
      FirstPiece(body, HEADER);
      assert bytes == body + "\n";
      if BeginsWith(bytes, HEADER) { HeaderNotLast(body); }
    }
  }

  /** With two newlines the line that begins a text ends before its last one. */
  lemma HeaderNotLast(body: Bytes)
    requires BeginsWith(body + "\n", HEADER) && Newlines(body) > 0
    ensures BeginsWith(body, HEADER)
  {
    var line := HEADER + "\n";
    HeaderIsOneLine();
    if |body| < |line| {
      var all := body + "\n";
      assert |all| == |line| && all[..|line|] == all && all == line;
      assert body == all[..|body|] && HEADER == line[..|HEADER|];
      NoNewlines(HEADER);
    }
  }

  lemma {:induction false} NoNewlines(s: Bytes)
    requires OneLine(s)
    ensures Newlines(s) == 0
  {
    if s != [] { NoNewlines(s[1..]); }
  }

  lemma UnframeRefuses(bytes: Bytes)
    ensures var p := Unframe(bytes);
      && (p == Err(Framing) <==> !Framed(bytes))
      && (p == Err(LineCount) <==> Framed(bytes) && Newlines(bytes) != 9)
      && (p == Err(RecordError.Header) <==> Framed(bytes) && Newlines(bytes) == 9 && !BeginsWith(bytes, HEADER))
      && p != Err(Oversized)
  {
    if Framed(bytes) {
      HeaderLine(bytes);
      var lines := Split(bytes[..|bytes| - 1]);
      if |lines| == 9 && Fields(lines[1..], NAMES).Err? { FieldsHaveShape(lines[1..], NAMES); }
    }
  }

  lemma ChecksHaveShape(v: seq<Bytes>, e: Expected)
    requires |v| == 8 && CheckFields(v, e).Err?
    ensures !OfShape(CheckFields(v, e).error)
  {
  }

  /** A file is refused unread if it is too long; for its framing if it holds a zero
      byte or does not end in a newline; for its line count if it has not nine
      lines; and for its header if the first is not the protocol's. */
  lemma RefusesByShape(bytes: Bytes, e: Expected)
    ensures var p := LoadRecord(bytes, e);
      && (p == Err(Oversized) <==> |bytes| > 16384)
      && (p == Err(Framing) <==> |bytes| <= 16384 && !Framed(bytes))
      && (p == Err(LineCount) <==> |bytes| <= 16384 && Framed(bytes) && Newlines(bytes) != 9)
      && (p == Err(RecordError.Header) <==>
            |bytes| <= 16384 && Framed(bytes) && Newlines(bytes) == 9 && !BeginsWith(bytes, HEADER))
  {
    UnframeRefuses(bytes);
    if Unframe(bytes).Ok? && CheckFields(Unframe(bytes).value, e).Err? { ChecksHaveShape(Unframe(bytes).value, e); }
  }

  // ----- names -----

  /** The names of the protocol, spelled out. */
  lemma NamesText(name: Bytes, nonce: Bytes, c: ClaimNames)
    ensures ValidNonce(nonce) ==> CanonicalTarget(name, nonce) == Some("." + name + ".install.lock.owner." + nonce + "/.")
    ensures ClaimDirName(name, c) == "." + name + ".install.lock.claim." + c.owner + "." + c.claimant
  {
  }
}
