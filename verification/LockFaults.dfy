/** Why a record file is refused: UTF-8 by its encoding table, and the first fault of
    a record in the order in which the reader looks for them. */
module LockFaults {
  import opened Wrappers
  import opened LockRecords
  import opened LockWire

  // ----- UTF-8 (RFC 3629, section 3) -----

  /** A character number that has an encoding: no surrogates. */
  predicate Scalar(c: nat) { c < 0x110000 && !(0xD800 <= c < 0xE000) }

  function ByteAt(n: nat): Byte
    requires n < 256
  {
    n as char
  }

  /** The octets of one character, by the table. */
  function Encoded(c: nat): (s: Bytes)
    requires Scalar(c)
    ensures 1 <= |s| <= 4
  {
    if c < 0x80 then [ByteAt(c)]
    else if c < 0x800 then [ByteAt(0xC0 + c / 64), ByteAt(0x80 + c % 64)]
    else if c < 0x10000 then [ByteAt(0xE0 + c / 4096), ByteAt(0x80 + c / 64 % 64), ByteAt(0x80 + c % 64)]
    else [ByteAt(0xF0 + c / 262144), ByteAt(0x80 + c / 4096 % 64), ByteAt(0x80 + c / 64 % 64), ByteAt(0x80 + c % 64)]
  }

  predicate Scalars(cs: seq<nat>) { forall i :: 0 <= i < |cs| ==> Scalar(cs[i]) }

  function EncodedText(cs: seq<nat>): Bytes
    requires Scalars(cs)
  {
    if cs == [] then [] else Encoded(cs[0]) + EncodedText(cs[1..])
  }

  /** A number in digits of six bits. */
  lemma Sixes(w: nat, x: nat, y: nat, z: nat)
    requires x < 64 && y < 64 && z < 64
    ensures var c := 262144 * w + 4096 * x + 64 * y + z;
      c / 262144 == w && c / 4096 == 64 * w + x && c / 4096 % 64 == x && c / 64 % 64 == y && c % 64 == z
      && c / 64 == 4096 * w + 64 * x + y
  {
  }

  lemma TwoOctets(s: Bytes) returns (c: nat)
    requires CharLength(s) == 2
    ensures Scalar(c) && Encoded(c) == s[..2]
  {
    var y, z := s[0] as int - 0xC0, s[1] as int - 0x80;
    c := 64 * y + z;
    Sixes(0, 0, y, z);
  }

  lemma ThreeOctets(s: Bytes) returns (c: nat)
    requires CharLength(s) == 3
    ensures Scalar(c) && Encoded(c) == s[..3]
  {
    var x, y, z := s[0] as int - 0xE0, s[1] as int - 0x80, s[2] as int - 0x80;
    c := 4096 * x + 64 * y + z;
    Sixes(0, x, y, z);
  }

  lemma FourOctets(s: Bytes) returns (c: nat)
    requires CharLength(s) == 4
    ensures Scalar(c) && Encoded(c) == s[..4]
  {
    var w, x, y, z := s[0] as int - 0xF0, s[1] as int - 0x80, s[2] as int - 0x80, s[3] as int - 0x80;
    c := 262144 * w + 4096 * x + 64 * y + z;
    Sixes(w, x, y, z);
  }

  /** The character that well-formed text begins with. */
  lemma FirstScalar(s: Bytes) returns (c: nat)
    requires CharLength(s) != 0
    ensures Scalar(c) && Encoded(c) == s[..CharLength(s)]
  {
    var n := CharLength(s);
    if n == 1 {
      c := s[0] as int;
    } else if n == 2 {
      c := TwoOctets(s);
    } else if n == 3 {
      c := ThreeOctets(s);
    } else {
      c := FourOctets(s);
    }
  }

  /** Encoded characters are measured right, whatever follows. */
  lemma EncodedLength(c: nat, t: Bytes)
    requires Scalar(c)
    ensures CharLength(Encoded(c) + t) == |Encoded(c)|
  {
    var s := Encoded(c) + t;
    assert forall i :: 0 <= i < |Encoded(c)| ==> s[i] == Encoded(c)[i];
  }

  lemma EncodedCons(c: nat, cs: seq<nat>)
    requires Scalar(c) && Scalars(cs)
    ensures Scalars([c] + cs) && EncodedText([c] + cs) == Encoded(c) + EncodedText(cs)
  {
    var all := [c] + cs;
    assert all[1..] == cs;
  }

  lemma FirstOctets(s: Bytes) returns (n: nat, c: nat)
    requires Utf8(s) && s != []
    ensures 0 < n <= |s| && Utf8(s[n..])
    ensures Scalar(c) && Encoded(c) == s[..n]
  {
    n := CharLength(s);
    c := FirstScalar(s);
  }

  lemma EncodedFirst(s: Bytes, n: nat, c: nat, cs: seq<nat>)
    requires n <= |s| && Scalar(c) && Scalars(cs)
    requires Encoded(c) == s[..n] && EncodedText(cs) == s[n..]
    ensures Scalars([c] + cs) && EncodedText([c] + cs) == s
  {
    EncodedCons(c, cs);
  }

  lemma {:induction false} Utf8Decodes(s: Bytes) returns (cs: seq<nat>)
    requires Utf8(s)
    ensures Scalars(cs) && EncodedText(cs) == s
    decreases |s|
  {
    if s == [] { return []; }
    var n, c := FirstOctets(s);
    cs := Utf8Decodes(s[n..]);
    EncodedFirst(s, n, c, cs);
    cs := [c] + cs;
  }

  lemma {:induction false} EncodedIsUtf8(cs: seq<nat>)
    requires Scalars(cs)
    ensures Utf8(EncodedText(cs))
    decreases |cs|
  {
    if cs != [] {
      var first, rest := Encoded(cs[0]), EncodedText(cs[1..]);
      EncodedIsUtf8(cs[1..]);
      EncodedLength(cs[0], rest);
      assert (first + rest)[|first|..] == rest;
    }
  }

  ghost predicate IsText(s: Bytes) { exists cs: seq<nat> | Scalars(cs) :: EncodedText(cs) == s }

  /** Bytes pass as text exactly when they encode characters by the table. */
  lemma Utf8IsText(s: Bytes)
    ensures Utf8(s) <==> IsText(s)
  {
    if Utf8(s) {
      var cs := Utf8Decodes(s);
      assert EncodedText(cs) == s;
    }
    if cs: seq<nat> :| Scalars(cs) && EncodedText(cs) == s { EncodedIsUtf8(cs); }
  }

  // ----- the fields -----

  /** The fields cannot be read because one line, with the lines before it as they
      should be, does not begin with its key, or goes on with what is not text. */
  lemma {:induction false} FieldsFail(lines: seq<Bytes>, names: seq<Bytes>) returns (i: nat)
    requires |lines| == |names| && Fields(lines, names).Err?
    ensures i < |names| && forall j :: 0 <= j < i ==> names[j] <= lines[j] && IsText(lines[j][|names[j]|..])
    ensures if names[i] <= lines[i] then Fields(lines, names) == Err(FieldText) && !IsText(lines[i][|names[i]|..])
            else Fields(lines, names) == Err(FieldMissing)
  {
    i := 0;
    if names[0] <= lines[0] { Utf8IsText(lines[0][|names[0]|..]); }
    if Field(lines[0], names[0]).Ok? {
      var k := FieldsFail(lines[1..], names[1..]);
      i := k + 1;
      forall j | 0 <= j < i ensures names[j] <= lines[j] && IsText(lines[j][|names[j]|..]) {
        if j > 0 { assert names[1..][j - 1] <= lines[1..][j - 1]; }
      }
    }
  }

  // ----- the values -----

  predicate Owning(e: Expected) { e.role.Owner? }

  /** The faults of the values, each with what it is. */
  predicate Has(v: seq<Bytes>, e: Expected, fault: RecordError)
    requires |v| == 8
  {
    match fault
    case Identity =>
      || v[0] != (if Owning(e) then "6f776e6572" else "636c61696d")
      || v[1] != e.nonce || v[2] != (if e.ownerNonce.Some? then e.ownerNonce.value else [])
    case NonceOrPid => !IsHex(v[1], 16, 16) || !IsPositive(v[3])
    case OwnerNamesOwner => Owning(e) && 0 < |v[2]|
    case ClaimNamesNoOwner => !Owning(e) && !IsHex(v[2], 16, 16)
    case HostOrToken => !IsHex(v[4], 1, 256) || !IsHex(v[6], 1, 1024)
    case Backend => v[5] != "70726f632d73746174" && v[5] != "70732d6c7374617274"
    case Checkout => !IsHex(v[7], 1, 4096) || v[7] != EncodeHex(e.checkout)
    case _ => false
  }

  /** The checks of the reader, in these terms. */
  lemma ChecksAreFaults(v: seq<Bytes>, e: Expected)
    requires |v| == 8
    ensures Has(v, e, Identity) <==> v[0] != e.role.WireHex() || v[1] != e.nonce || v[2] != OrEmpty(e.ownerNonce)
    ensures Has(v, e, NonceOrPid) <==> !ValidNonce(v[1]) || !ValidPid(v[3])
    ensures Has(v, e, OwnerNamesOwner) <==> e.role.Owner? && v[2] != []
    ensures Has(v, e, ClaimNamesNoOwner) <==> e.role.Claim? && !ValidNonce(v[2])
    ensures Has(v, e, HostOrToken) <==> !ValidHex(v[4], 512) || !ValidHex(v[6], 2048)
    ensures Has(v, e, Backend) <==> v[5] != PROC_STAT_KIND && v[5] != PS_LSTART_KIND
    ensures Has(v, e, RecordError.Checkout) <==> !ValidHex(v[7], 8192) || v[7] != EncodeHex(e.checkout)
  {
    NonceBounds(v[1]);
    NonceBounds(v[2]);
    PidIsPositive(v[3]);
    HexBounds(v[4], 256);
    HexBounds(v[6], 1024);
    HexBounds(v[7], 4096);
  }

  const ORDER := [Identity, NonceOrPid, OwnerNamesOwner, ClaimNamesNoOwner, HostOrToken, Backend, RecordError.Checkout]

  predicate NoneBefore(v: seq<Bytes>, e: Expected, i: nat)
    requires |v| == 8 && i <= |ORDER|
  {
    forall j :: 0 <= j < i ==> !Has(v, e, ORDER[j])
  }

  lemma Seven(v: seq<Bytes>, e: Expected, i: nat)
    requires |v| == 8 && i < |ORDER|
    ensures NoneBefore(v, e, 0)
    ensures NoneBefore(v, e, i + 1) <==> NoneBefore(v, e, i) && !Has(v, e, ORDER[i])
  {
  }

  /** The reader reports the first fault there is, in this order, and accepts the
      values if there is none. */
  lemma FirstFault(v: seq<Bytes>, e: Expected, i: nat)
    requires |v| == 8 && i < |ORDER|
    ensures CheckFields(v, e) == Err(ORDER[i]) <==> Has(v, e, ORDER[i]) && NoneBefore(v, e, i)
    ensures CheckFields(v, e).Ok? <==> NoneBefore(v, e, |ORDER|)
  {
    ChecksAreFaults(v, e);
    Seven(v, e, 0);
    Seven(v, e, 1);
    Seven(v, e, 2);
    Seven(v, e, 3);
    Seven(v, e, 4);
    Seven(v, e, 5);
    Seven(v, e, 6);
  }
}
