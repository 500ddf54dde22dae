/**
 Hexadecimal quantities: subscription ids (rpc/subscription.go, encodeID), and the encoding of
 numbers in the Ethereum JSON-RPC API, which is an assumption about the hexutil package.
 */
module Quantities {
  import opened Digits

  type Byte = b: nat | b < 256

  /** hex.EncodeToString: two lower-case digits per byte. */
  function HexEncode(b: seq<Byte>): string {
    if b == [] then ""
    else HexEncode(b[..|b| - 1]) + [DIGITS[b[|b| - 1] / 16], DIGITS[b[|b| - 1] % 16]]
  }

  function TrimZeros(s: string): string {
    if s != [] && s[0] == '0' then TrimZeros(s[1..]) else s
  }

  function EncodeID(b: seq<Byte>): string {
    var id := TrimZeros(HexEncode(b));
    "0x" + (if id == "" then "0" else id)
  }

  function BigEndian(b: seq<Byte>): nat {
    if b == [] then 0 else BigEndian(b[..|b| - 1]) * 256 + b[|b| - 1]
  }

  /** The canonical form of a number: no leading zero, and zero is "0x0". */
  function Quantity(n: nat): string {
    "0x" + Print(n, Hex)
  }

  /** The prefix, then lower-case digits of this value, the first of them not zero unless it is the only one. */
  predicate IsQuantityOf(s: string, n: nat) {
    && |s| >= 3 && s[0] == '0' && s[1] == 'x'
    && (forall i :: 2 <= i < |s| ==> '0' <= s[i] <= '9' || 'a' <= s[i] <= 'f')
    && (|s| > 3 ==> s[2] != '0')
    && Value(s[2..], Hex) == n
  }

  predicate LowerHex(s: string) {
    forall i :: 0 <= i < |s| ==> DigitValue(s[i]) < 16 && IsLower(s[i])
  }

  lemma {:induction false} HexEncodeShape(b: seq<Byte>)
    ensures LowerHex(HexEncode(b)) && |HexEncode(b)| == 2 * |b|
  {
    if b != [] {
      HexEncodeShape(b[..|b| - 1]);
      DigitRoundTrip(b[|b| - 1] / 16);
      DigitRoundTrip(b[|b| - 1] % 16);
    }
  }

  lemma ByteValue(s: string, x: Byte)
    ensures Value(s + [DIGITS[x / 16], DIGITS[x % 16]], Hex) == 256 * Value(s, Hex) + x
  {
    var hi, lo := DIGITS[x / 16], DIGITS[x % 16];
    DigitRoundTrip(x / 16);
    DigitRoundTrip(x % 16);
    ValuePush(s, hi, Hex);
    ValuePush(s + [hi], lo, Hex);
    assert s + [hi] + [lo] == s + [hi, lo];
  }

  lemma {:induction false} HexEncodeValue(b: seq<Byte>)
    ensures Value(HexEncode(b), Hex) == BigEndian(b)
  {
    if b != [] {
      HexEncodeValue(b[..|b| - 1]);
      ByteValue(HexEncode(b[..|b| - 1]), b[|b| - 1]);
    }
  }

  lemma {:induction false} LeadingZero(s: string)
    ensures Value(['0'] + s, Hex) == Value(s, Hex)
  {
    if s == [] {
      assert ['0'] + s == [] + ['0'];
      ValuePush([], '0', Hex);
    } else {
      var t, c := s[..|s| - 1], s[|s| - 1];
      LeadingZero(t);
      ValuePush(['0'] + t, c, Hex);
      assert ['0'] + s == ['0'] + t + [c];
    }
  }

  lemma {:induction false} TrimKeepsValue(s: string)
    requires LowerHex(s)
    ensures Value(TrimZeros(s), Hex) == Value(s, Hex) && LowerHex(TrimZeros(s))
    ensures |TrimZeros(s)| <= |s| && (TrimZeros(s) != [] ==> TrimZeros(s)[0] != '0')
  {
    if s != [] && s[0] == '0' {
      TrimKeepsValue(s[1..]);
      LeadingZero(s[1..]);
      assert s == ['0'] + s[1..];
    }
  }

  /** A subscription id is the canonical quantity of the big-endian value of its bytes. */
  lemma EncodedIsQuantity(b: seq<Byte>)
    ensures EncodeID(b) == Quantity(BigEndian(b)) && IsQuantityOf(EncodeID(b), BigEndian(b))
    ensures 3 <= |EncodeID(b)| && (b != [] ==> |EncodeID(b)| <= 2 + 2 * |b|)
  {
    var id := TrimZeros(HexEncode(b));
    HexEncodeShape(b);
    HexEncodeValue(b);
    TrimKeepsValue(HexEncode(b));
    if id == "" {
      assert Print(0, Hex) == "0";
    } else {
      CanonicalIsPrinted(id, Hex);
    }
    QuantityIsCanonical(BigEndian(b));
  }

  lemma QuantityIsCanonical(n: nat)
    ensures IsQuantityOf(Quantity(n), n)
  {
    PrintedValue(n, Hex);
    assert Quantity(n)[2..] == Print(n, Hex);
  }

  /** Byte strings share an id exactly when they denote the same number. */
  lemma EncodeEqual(a: seq<Byte>, b: seq<Byte>)
    ensures EncodeID(a) == EncodeID(b) <==> BigEndian(a) == BigEndian(b)
  {
    EncodedIsQuantity(a);
    EncodedIsQuantity(b);
    if EncodeID(a) == EncodeID(b) {
      assert Quantity(BigEndian(a))[2..] == Print(BigEndian(a), Hex);
      assert Quantity(BigEndian(b))[2..] == Print(BigEndian(b), Hex);
      PrintInjective(BigEndian(a), BigEndian(b), Hex);
    }
  }

  lemma {:induction false} BigEndianInjective(a: seq<Byte>, b: seq<Byte>)
    requires |a| == |b| && BigEndian(a) == BigEndian(b)
    ensures a == b
  {
    if a != [] {
      var n := |a| - 1;
      BigEndianInjective(a[..n], b[..n]);
      assert a == a[..n] + [a[n]] && b == b[..n] + [b[n]];
    }
  }

  /** Random byte strings of one length get the same id only if they are equal. */
  lemma EncodeInjective(a: seq<Byte>, b: seq<Byte>)
    requires |a| == |b| && EncodeID(a) == EncodeID(b)
    ensures a == b
  {
    EncodeEqual(a, b);
    BigEndianInjective(a, b);
  }

  // ---- decoding ------------------------------------------------------------------------

  datatype DecodeError = EmptyString | MissingPrefix | EmptyNumber | LeadingZeros | BadSyntax | OutOfRange | WrongLength

  datatype Decoded<T> = Ok(value: T) | Err(error: DecodeError)

  const MAX_UINT64 := 0xffff_ffff_ffff_ffff

  predicate HasPrefix0x(s: string) {
    |s| >= 2 && s[0] == '0' && (s[1] == 'x' || s[1] == 'X')
  }

  function DecodeUint64(s: string): Decoded<nat> {
    if s == "" then Err(EmptyString)
    else if !HasPrefix0x(s) then Err(MissingPrefix)
    else if |s| == 2 then Err(EmptyNumber)
    else if |s| > 3 && s[2] == '0' then Err(LeadingZeros)
    else if !IsDigits(s[2..], Hex) then Err(BadSyntax)
    else if Value(s[2..], Hex) > MAX_UINT64 then Err(OutOfRange)
    else Ok(Value(s[2..], Hex))
  }

  /** Decoding undoes encoding. */
  lemma QuantityRoundTrip(n: nat)
    ensures DecodeUint64(Quantity(n)) == if n <= MAX_UINT64 then Ok(n) else Err(OutOfRange)
  {
    PrintedValue(n, Hex);
    assert Quantity(n)[2..] == Print(n, Hex);
  }

  /** A lower-case text is accepted exactly if it is the quantity of a number that fits 64 bits. */
  lemma AcceptedIsQuantity(s: string, n: nat)
    requires forall i :: 0 <= i < |s| ==> !('A' <= s[i] <= 'F') && s[i] != 'X'
    ensures DecodeUint64(s) == Ok(n) <==> n <= 0xffff_ffff_ffff_ffff && s == Quantity(n)
  {
    if DecodeUint64(s) == Ok(n) {
      CanonicalIsPrinted(s[2..], Hex);
      assert s == "0x" + s[2..];
    } else if n <= 0xffff_ffff_ffff_ffff {
      QuantityRoundTrip(n);
    }
  }

  /** A number that fits 64 bits has at most 16 digits. */
  lemma AcceptedIsShort(s: string)
    requires DecodeUint64(s).Ok?
    ensures 3 <= |s| <= 18
  {
    var raw := s[2..];
    if |raw| > 16 {
      assert raw[0] != '0';
      assert DigitValue(raw[0]) > 0;
      ValueAtLeast(raw);
      PowerGrows(|raw| - 1);
    }
  }

  lemma {:induction false} PowerGrows(k: nat)
    requires 16 <= k
    ensures Power16(k) > MAX_UINT64
  {
    if k == 16 {
      assert Power16(4) == 0x1_0000;
      assert Power16(8) == 0x1_0000_0000;
      assert Power16(12) == 0x1_0000_0000_0000;
    } else {
      PowerGrows(k - 1);
    }
  }
}
