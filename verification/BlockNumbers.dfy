/** Block numbers and block references (rpc/types.go). */
module BlockNumbers {
  import opened Options
  import opened Digits
  import opened Quantities

  const MAX_INT64 := 0x7fff_ffff_ffff_ffff
  const MIN_INT64 := -0x8000_0000_0000_0000

  type BlockNumber = n: int | MIN_INT64 <= n <= MAX_INT64

  const SAFE: BlockNumber := -4
  const FINALIZED: BlockNumber := -3
  const LATEST: BlockNumber := -2
  const PENDING: BlockNumber := -1
  const EARLIEST: BlockNumber := 0

  /** White space as Unicode defines it. */
  predicate IsSpace(c: char) {
    var u := c as int;
    || 9 <= u <= 13 || u == 0x20 || u == 0x85 || u == 0xA0 || u == 0x1680 || 0x2000 <= u <= 0x200A
    || u == 0x2028 || u == 0x2029 || u == 0x202F || u == 0x205F || u == 0x3000
  }

  function TrimLeft(s: string): string {
    if s != [] && IsSpace(s[0]) then TrimLeft(s[1..]) else s
  }

  function TrimRight(s: string): string {
    if s != [] && IsSpace(s[|s| - 1]) then TrimRight(s[..|s| - 1]) else s
  }

  function TrimSpace(s: string): string {
    TrimRight(TrimLeft(s))
  }

  function Unquote(s: string): string {
    if |s| >= 2 && s[0] == '"' && s[|s| - 1] == '"' then s[1..|s| - 1] else s
  }

  /** The number that a name stands for. */
  function Named(s: string): Option<BlockNumber> {
    if s == "earliest" then Some(EARLIEST)
    else if s == "latest" then Some(LATEST)
    else if s == "pending" then Some(PENDING)
    else if s == "finalized" then Some(FINALIZED)
    else if s == "safe" then Some(SAFE)
    else None
  }

  /** A name, or a quantity that fits a signed 64-bit integer. */
  function ParseName(s: string): Decoded<BlockNumber> {
    if Named(s).Some? then
      var number: BlockNumber := Named(s).value;
      Ok(number)
    else
      var n := DecodeUint64(s);
      if n.Err? then Err(n.error)
      else if n.value > MAX_INT64 then Err(OutOfRange)
      else
        var number: BlockNumber := n.value;
        Ok(number)
  }

  function Parse(data: string): Decoded<BlockNumber> {
    ParseName(Unquote(TrimSpace(data)))
  }

  function SignedDecimal(n: int): string {
    if n < 0 then "-" + Print(-n, Dec) else Print(n, Dec)
  }

  function ToString(n: BlockNumber): string {
    if n == EARLIEST then "earliest"
    else if n == LATEST then "latest"
    else if n == PENDING then "pending"
    else if n == FINALIZED then "finalized"
    else if n == SAFE then "safe"
    else if n < 0 then "<invalid " + SignedDecimal(n) + ">"
    else Quantity(n)
  }

  function Quoted(s: string): string {
    "\"" + s + "\""
  }

  lemma QuotedIsUnquoted(s: string)
    ensures Unquote(TrimSpace(Quoted(s))) == s
  {
    var q := Quoted(s);
    assert TrimLeft(q) == q && TrimRight(q) == q;
    assert q[1..|q| - 1] == s;
  }

  ghost predicate AllSpace(s: string) {
    forall i :: 0 <= i < |s| ==> s[i] in " \t\n\r"
  }

  lemma {:induction false} TrimsLeft(a: string, s: string)
    requires AllSpace(a) && (s != [] ==> !IsSpace(s[0]))
    ensures TrimLeft(a + s) == s
  {
    if a == [] {
      assert a + s == s;
    } else {
      TrimsLeft(a[1..], s);
      assert (a + s)[1..] == a[1..] + s && a[0] in " \t\n\r";
    }
  }

  lemma {:induction false} TrimsRight(s: string, b: string)
    requires AllSpace(b) && s != [] && !IsSpace(s[|s| - 1])
    ensures TrimRight(s + b) == s
  {
    if b == [] {
      assert s + b == s;
    } else {
      var n := |b| - 1;
      TrimsRight(s, b[..n]);
      assert (s + b)[..|s + b| - 1] == s + b[..n] && b[n] in " \t\n\r";
    }
  }

  /** White space around a quoted text does not matter. */
  lemma SpaceIgnored(a: string, s: string, b: string)
    requires AllSpace(a) && AllSpace(b)
    ensures Parse(a + Quoted(s) + b) == ParseName(s)
  {
    var q := Quoted(s);
    TrimsRight(q, b);
    assert a + q + b == a + (q + b);
    assert (q + b)[0] == '"';
    TrimsLeft(a, q + b);
    assert q[1..|q| - 1] == s;
  }

  /** The quotes may be missing. */
  lemma QuotesOptional(s: string)
    requires s != [] && !IsSpace(s[0]) && !IsSpace(s[|s| - 1]) && s[0] != '"'
    ensures Parse(s) == ParseName(s)
  {
  }

  /** The names, and the numbers that they stand for. */
  lemma NamedNumbers()
    ensures ParseName("earliest") == Ok(0) && ParseName("latest") == Ok(-2) && ParseName("pending") == Ok(-1)
    ensures ParseName("finalized") == Ok(-3) && ParseName("safe") == Ok(-4)
  {
  }

  /** Every other text is a number exactly if it is an unsigned quantity below 2^63. */
  lemma OtherTexts(s: string)
    requires s !in {"earliest", "latest", "pending", "finalized", "safe"}
    ensures ParseName(s).Ok? <==> DecodeUint64(s).Ok? && DecodeUint64(s).value < 0x8000_0000_0000_0000
    ensures ParseName(s).Ok? ==> ParseName(s).value == DecodeUint64(s).value
  {
  }

  /** Every accepted text denotes a number from -4 to 2^63-1. */
  lemma ParsedRange(data: string)
    requires Parse(data).Ok?
    ensures SAFE <= Parse(data).value <= MAX_INT64
  {
  }

  /** Exactly the numbers from -4 on survive printing and parsing. */
  lemma RoundTrip(n: BlockNumber)
    ensures n >= SAFE ==> Parse(Quoted(ToString(n))) == Ok(n)
    ensures n < SAFE ==> Parse(Quoted(ToString(n))) == Err(MissingPrefix)
  {
    QuotedIsUnquoted(ToString(n));
    if n > 0 {
      QuantityRoundTrip(n);
      assert Quantity(n)[0] == '0';
    } else if n < SAFE {
      assert ToString(n)[0] == '<';
    }
  }

  /** A number below -4 is printed as invalid, with its decimal value. */
  lemma InvalidText(k: nat) returns (d: string)
    requires 4 < k <= 0x8000_0000_0000_0000
    ensures ToString(0 - k) == "<invalid -" + d + ">" && Canonical(d, Dec) && Value(d, Dec) == k
  {
    d := Print(k, Dec);
    PrintedValue(k, Dec);
    assert "<invalid " + ("-" + d) + ">" == "<invalid -" + d + ">";
  }

  /** Parsing and printing leaves one text per number: a second round changes nothing. */
  lemma ParsedIsPrintable(data: string)
    requires Parse(data).Ok?
    ensures Parse(Quoted(ToString(Parse(data).value))) == Parse(data)
  {
    ParsedRange(data);
    RoundTrip(Parse(data).value);
  }

  // ---- BlockNumberOrHash -----------------------------------------------------------------

  const HASH_TEXT_LENGTH := 66

  /** A JSON value as far as BlockNumberOrHash is concerned. */
  datatype Json =
    | Null
    | Object(number: Option<BlockNumber>, hash: Option<string>, canonical: bool)
    | BadObject
    | Text(s: string)
    | Other

  datatype Reference = Reference(number: Option<BlockNumber>, hash: Option<string>, canonical: bool)

  const EMPTY := Reference(None, None, false)

  datatype Outcome = Accepted(ref: Reference) | Rejected

  function DecodeHash(s: string): Decoded<string> {
    if !HasPrefix0x(s) then Err(MissingPrefix)
    else if |s| != HASH_TEXT_LENGTH then Err(WrongLength)
    else if !IsDigits(s[2..], Hex) then Err(BadSyntax)
    else Ok(s[2..])
  }

  /** The effect on the target; on rejection the target keeps its fields. */
  function Unmarshalled(target: Reference, data: Json): Outcome {
    match data
    case Null => Accepted(EMPTY)
    case Object(number, hash, canonical) =>
      if number.Some? && hash.Some? then Rejected else Accepted(Reference(number, hash, canonical))
    case Text(s) =>
      if Named(s).None? && |s| == HASH_TEXT_LENGTH then
        var h := DecodeHash(s);
        if h.Ok? then Accepted(target.(hash := Some(h.value))) else Rejected
      else
        var n := ParseName(s);
        if n.Ok? then Accepted(target.(number := Some(n.value))) else Rejected
    case BadObject => Rejected
    case Other => Rejected
  }

  class BlockNumberOrHash {
    var number: Option<BlockNumber>
    var hash: Option<string>
    var canonical: bool

    ghost function View(): Reference
      reads this
    {
      Reference(number, hash, canonical)
    }

    constructor ()
      ensures View() == EMPTY
    {
      number, hash, canonical := None, None, false;
    }

    method UnmarshalJSON(data: Json) returns (ok: bool)
      modifies this
      ensures ok <==> Unmarshalled(old(View()), data).Accepted?
      ensures View() == if ok then Unmarshalled(old(View()), data).ref else old(View())
    {
      match data {
        case Null =>
          number, hash, canonical := None, None, false;
          return true;
        case Object(n, h, c) =>
          if n.Some? && h.Some? {
            return false;
          }
          number, hash, canonical := n, h, c;
          return true;
        case Text(s) =>
          var name := Named(s);
          if name.Some? {
            number := name;
            return true;
          }
          if |s| == HASH_TEXT_LENGTH {
            var h := DecodeHash(s);
            if h.Err? {
              return false;
            }
            hash := Some(h.value);
            return true;
          }
          var n := DecodeUint64(s);
          if n.Err? || n.value > MAX_INT64 {
            return false;
          }
          number := Some(n.value);
          return true;
        case BadObject => return false;
        case Other => return false;
      }
    }
  }

  predicate SetsExactlyOne(r: Reference) {
    r.number.Some? <==> r.hash.None?
  }

  /** No text of the length of a hash is accepted as a number. */
  lemma HashIsNoNumber(s: string)
    requires |s| == HASH_TEXT_LENGTH
    ensures ParseName(s).Err?
  {
    if DecodeUint64(s).Ok? {
      AcceptedIsShort(s);
    }
  }

  /**
   An accepted text names either a number or a hash, never both; the target then has exactly
   one of the two set exactly when it did not have the other one before, which holds for a
   fresh target.
   */
  lemma TextSetsOne(target: Reference, s: string)
    requires Unmarshalled(target, Text(s)).Accepted?
    ensures ParseName(s).Ok? <==> !DecodeHash(s).Ok?
    ensures var r := Unmarshalled(target, Text(s)).ref;
            && (ParseName(s).Ok? ==> r == target.(number := Some(ParseName(s).value)))
            && (DecodeHash(s).Ok? ==> r == target.(hash := Some(DecodeHash(s).value)))
            && (SetsExactlyOne(r) <==> if ParseName(s).Ok? then target.hash.None? else target.number.None?)
  {
    if |s| == HASH_TEXT_LENGTH {
      HashIsNoNumber(s);
    }
  }

  /** A text is accepted exactly if it names a number or is a hash. */
  lemma TextAcceptedIff(target: Reference, s: string)
    ensures Unmarshalled(target, Text(s)).Accepted? <==> ParseName(s).Ok? || DecodeHash(s).Ok?
  {
    if |s| == HASH_TEXT_LENGTH {
      HashIsNoNumber(s);
    }
  }

  /** A reused target can end up with both fields set. */
  lemma ReusedTargetWitness(h: string)
    ensures var r := Unmarshalled(EMPTY.(hash := Some(h)), Text("latest"));
            r.Accepted? && r.ref.number.Some? && r.ref.hash.Some?
  {
  }

  /** An object is accepted unless it has both; then all three fields are those of the object. */
  lemma ObjectReplaces(target: Reference, number: Option<BlockNumber>, hash: Option<string>, canonical: bool)
    ensures var r := Unmarshalled(target, Object(number, hash, canonical));
            if number.Some? && hash.Some? then r == Rejected
            else r.Accepted? && r.ref.number == number && r.ref.hash == hash && r.ref.canonical == canonical
    ensures Unmarshalled(target, Null) == Accepted(Reference(None, None, false))
  {
  }

  /** A hash is the 64 digits after its prefix; the number of the target stays. */
  lemma HashAccepted(target: Reference, digits: string)
    requires |digits| == 64 && IsDigits(digits, Hex)
    ensures Unmarshalled(target, Text("0x" + digits)) == Accepted(target.(hash := Some(digits)))
  {
    assert ("0x" + digits)[2..] == digits;
    assert |"0x" + digits| == 66;
  }

  /** An accepted object never sets both. */
  lemma ObjectNeverSetsBoth(target: Reference, data: Json)
    requires data.Object? || data.Null?
    requires Unmarshalled(target, data).Accepted?
    ensures var r := Unmarshalled(target, data).ref; r.number.None? || r.hash.None?
  {
  }
}
