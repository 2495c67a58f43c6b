/** The text form of a packet: a type digit, three ten-digit fields and padding, and its parser. */
module PacketText {
  import opened Base

  const WORD: nat := UINT64_MAX + 1
  const FIELD_LIMIT: nat := 10_000_000_000
  const TYPE_LEN: nat := 1
  const SIZE_T_LEN: nat := 10
  const PACKET_SIZE: nat := 1472
  const PADDING_LEN: nat := PACKET_SIZE - TYPE_LEN - 3 * SIZE_T_LEN - 1

  /** A packet number and a length are unsigned words of 64 and 16 bits; a time is a signed 64-bit word. */
  datatype Packet = Packet(packetNumber: nat, sendTime: int, length: nat)

  predicate Representable(p: Packet) {
    p.packetNumber < WORD && -(INT64_MAX as int) - 1 <= p.sendTime <= INT64_MAX && p.length < 0x1_0000
  }

  datatype Error = InvalidArgument | OutOfRange
  datatype Result<T> = Ok(value: T) | Err(error: Error)

  /** The casts between the signed and the unsigned word. */
  function Unsigned(t: int): nat { t % WORD }
  function Signed(u: nat): int { if u > INT64_MAX then u - WORD else u }

  // ---------------------------------------------------------------- digits

  predicate IsDigit(c: char) { '0' <= c <= '9' }

  ghost predicate AllDigits(s: string) {
    forall i: nat :: i < |s| ==> IsDigit(s[i])
  }

  function Digit(d: nat): (c: char)
    requires d < 10
    ensures IsDigit(c) && c as int - '0' as int == d
  {
    ('0' as int + d) as char
  }

  /** The number that a string of digits denotes. */
  function Value(s: string): nat {
    if s == [] then 0
    else 10 * Value(s[..|s| - 1]) + (if IsDigit(s[|s| - 1]) then s[|s| - 1] as int - '0' as int else 0)
  }

  /** `std::to_string`. */
  function Decimal(n: nat): string {
    if n < 10 then [Digit(n)] else Decimal(n / 10) + [Digit(n % 10)]
  }

  function Zeros(n: nat): string {
    seq(n, _ => '0')
  }

  /** The digits at the right of `len` zeros, or zeros alone when they do not fit. */
  function Padded(digits: string, len: nat): string {
    if |digits| <= len then Zeros(len - |digits|) + digits else Zeros(len)
  }

  function Pow10(k: nat): nat {
    if k == 0 then 1 else 10 * Pow10(k - 1)
  }

  lemma {:induction false} DecimalDenotes(n: nat)
    ensures Value(Decimal(n)) == n && AllDigits(Decimal(n)) && Decimal(n) != []
  {
    if n >= 10 {
      DecimalDenotes(n / 10);
      assert Decimal(n)[..|Decimal(n)| - 1] == Decimal(n / 10);
    } else {
      assert Value([Digit(n)][..0]) == 0;
    }
  }

  lemma {:induction false} DecimalFits(n: nat, k: nat)
    requires n < Pow10(k) && k > 0
    ensures |Decimal(n)| <= k
  {
    if n >= 10 {
      DecimalFits(n / 10, k - 1);
    }
  }

  lemma {:induction false} ValueBelow(s: string)
    requires AllDigits(s)
    ensures Value(s) < Pow10(|s|)
  {
    if s != [] {
      ValueBelow(s[..|s| - 1]);
    }
  }

  lemma {:induction false} LeadingZeros(n: nat, s: string)
    ensures Value(Zeros(n) + s) == Value(s)
    decreases n + |s|
  {
    var z := Zeros(n) + s;
    if s != [] {
      assert z[..|z| - 1] == Zeros(n) + s[..|s| - 1];
      LeadingZeros(n, s[..|s| - 1]);
    } else if n > 0 {
      assert z[..|z| - 1] == Zeros(n - 1) + s;
      LeadingZeros(n - 1, s);
    }
  }

  /** Strings of digits of one length denote different numbers. */
  lemma {:induction false} ValueInjective(s: string, t: string)
    requires AllDigits(s) && AllDigits(t) && |s| == |t| && Value(s) == Value(t)
    ensures s == t
    decreases |s|
  {
    if s != [] {
      var n := |s| - 1;
      ValueInjective(s[..n], t[..n]);
      assert s == s[..n] + [s[n]] && t == t[..n] + [t[n]];
    }
  }

  /** A number that fits is padded to a field that denotes it, and the field determines the number. */
  lemma PaddedDenotes(n: nat, k: nat)
    requires n < Pow10(k) && k > 0
    ensures |Padded(Decimal(n), k)| == k && AllDigits(Padded(Decimal(n), k)) && Value(Padded(Decimal(n), k)) == n
  {
    hide Decimal; hide Value; hide Pow10;
    DecimalFits(n, k);
    DecimalDenotes(n);
    LeadingZeros(k - |Decimal(n)|, Decimal(n));
  }

  /** ... and every field of digits is the padded form of what it denotes. */
  lemma PaddedOfValue(s: string)
    requires AllDigits(s) && s != []
    ensures Padded(Decimal(Value(s)), |s|) == s
  {
    ValueBelow(s);
    PaddedDenotes(Value(s), |s|);
    ValueInjective(Padded(Decimal(Value(s)), |s|), s);
  }

  lemma FieldLimit()
    ensures Pow10(SIZE_T_LEN) == FIELD_LIMIT
  {
  }

  // ---------------------------------------------------------------- printing

  /** The character loop that both formatting functions run: the buffer is filled with zeros and a final null, and the
      digits are copied from right to left. */
  method FillBuffer(digits: string, len: nat) returns (text: string)
    ensures text == Padded(digits, len)
  {
    var c := new char[len + 1];
    var k := 0;
    while k < len + 1
      invariant k <= len + 1
      invariant forall m: nat :: m < k ==> c[m] == '0'
    {
      c[k] := '0';
      k := k + 1;
    }
    if |digits| <= len {
      var i, j := len - 1, |digits| - 1;
      while j > -1
        invariant -1 <= j < |digits| && i == len - |digits| + j
        invariant forall m: nat :: i < m < len ==> c[m] == digits[m - (len - |digits|)]
        invariant forall m: nat :: m <= i ==> c[m] == '0'
      {
        c[i] := digits[j];
        i, j := i - 1, j - 1;
      }
    }
    c[len] := '\0';
    text := c[..len];
  }

  method SizeTToString(number: nat) returns (text: string)
    requires number < WORD
    ensures |text| == SIZE_T_LEN && AllDigits(text) && Value(text) == number % FIELD_LIMIT
  {
    FieldLimit();
    var n := number % FIELD_LIMIT;
    PaddedDenotes(n, SIZE_T_LEN);
    text := FillBuffer(Decimal(n), SIZE_T_LEN);
  }

  /** A number with too many digits comes out as zeros. */
  method NumberToFixLenString(number: nat, len: nat) returns (text: string)
    ensures |text| == len && AllDigits(text)
    ensures Value(text) == if number < Pow10(len) then number else 0
  {
    text := FillBuffer(Decimal(number), len);
    DecimalDenotes(number);
    if number < Pow10(len) && len > 0 {
      PaddedDenotes(number, len);
    } else if len > 0 {
      if |Decimal(number)| <= len {
        ValueBelow(Padded(Decimal(number), len));
        LeadingZeros(len - |Decimal(number)|, Decimal(number));
      } else {
        LeadingZeros(len, []);
        assert Zeros(len) + [] == Zeros(len);
      }
    }
  }

  /** A field and the padding, as values. */
  function Field(number: nat): string {
    Padded(Decimal(number % FIELD_LIMIT), SIZE_T_LEN)
  }

  function Printed(p: Packet): string {
    "0" + Field(p.packetNumber) + Field(Unsigned(p.sendTime)) + Field(p.length) + Zeros(PADDING_LEN)
  }

  lemma FieldDenotes(number: nat)
    ensures |Field(number)| == SIZE_T_LEN && AllDigits(Field(number)) && Value(Field(number)) == number % FIELD_LIMIT
  {
    FieldLimit();
    PaddedDenotes(number % FIELD_LIMIT, SIZE_T_LEN);
  }

  method Serialize(p: Packet) returns (content: string)
    requires Representable(p)
    ensures content == Printed(p)
  {
    content := "";
    content := content + "0";
    var field := SizeTToString(p.packetNumber);
    FieldIs(field, p.packetNumber);
    content := content + field;
    field := SizeTToString(Unsigned(p.sendTime));
    FieldIs(field, Unsigned(p.sendTime));
    content := content + field;
    field := SizeTToString(p.length);
    FieldIs(field, p.length);
    content := content + field;
    var padding := NumberToFixLenString(0, PADDING_LEN);
    PaddingIs(padding, PADDING_LEN);
    content := content + padding;
  }

  lemma FieldIs(text: string, number: nat)
    requires |text| == SIZE_T_LEN && AllDigits(text) && Value(text) == number % FIELD_LIMIT
    ensures text == Field(number)
  {
    FieldDenotes(number);
    ValueInjective(text, Field(number));
  }

  lemma PaddingIs(text: string, len: nat)
    requires |text| == len && AllDigits(text) && Value(text) == 0
    ensures text == Zeros(len)
  {
    LeadingZeros(len, []);
    assert Zeros(len) + [] == Zeros(len);
    ValueInjective(text, Zeros(len));
  }

  // ---------------------------------------------------------------- parsing

  /** `std::string::substr`. */
  function Substr(s: string, pos: nat, len: nat): Result<string> {
    if pos > |s| then Err(OutOfRange)
    else Ok(s[pos..if pos + len <= |s| then pos + len else |s|])
  }

  predicate IsBlank(c: char) {
    c == ' ' || 9 <= c as int <= 13
  }

  function SkipBlanks(s: string): string {
    if s != [] && IsBlank(s[0]) then SkipBlanks(s[1..]) else s
  }

  function DigitPrefix(s: string): string {
    if s != [] && IsDigit(s[0]) then [s[0]] + DigitPrefix(s[1..]) else []
  }

  /** `std::stoul`: blanks, an optional sign, the longest run of digits; the rest is ignored. */
  function Stoul(s: string): Result<nat> {
    var t := SkipBlanks(s);
    var negative := t != [] && t[0] == '-';
    var digits := DigitPrefix(if t != [] && (t[0] == '-' || t[0] == '+') then t[1..] else t);
    if digits == [] then Err(InvalidArgument)
    else if Value(digits) > UINT64_MAX then Err(OutOfRange)
    else Ok(if negative then (WORD - Value(digits)) % WORD else Value(digits))
  }

  function Parsed(s: string, pos: nat): Result<nat> {
    match Substr(s, pos, SIZE_T_LEN)
    case Err(e) => Err(e)
    case Ok(field) => Stoul(field)
  }

  /** `ClientPacketParser::UnSerialize`; the type digit and the padding are not looked at. */
  function UnSerialize(s: string): Result<Packet> {
    match Parsed(s, TYPE_LEN)
    case Err(e) => Err(e)
    case Ok(number) =>
      match Parsed(s, TYPE_LEN + SIZE_T_LEN)
      case Err(e) => Err(e)
      case Ok(time) =>
        match Parsed(s, TYPE_LEN + 2 * SIZE_T_LEN)
        case Err(e) => Err(e)
        case Ok(length) => Ok(Packet(number, Signed(time), length % 0x1_0000))
  }

  lemma {:induction false} DigitPrefixOfDigits(s: string)
    requires AllDigits(s)
    ensures DigitPrefix(s) == s
  {
    if s != [] {
      DigitPrefixOfDigits(s[1..]);
    }
  }

  /** A field of ten digits is read as the number it denotes. */
  lemma FieldParses(s: string, pos: nat)
    requires pos + SIZE_T_LEN <= |s| && AllDigits(s[pos..pos + SIZE_T_LEN])
    ensures Parsed(s, pos) == Ok(Value(s[pos..pos + SIZE_T_LEN])) && Value(s[pos..pos + SIZE_T_LEN]) < FIELD_LIMIT
  {
    hide Value;
    var field := s[pos..pos + SIZE_T_LEN];
    DigitPrefixOfDigits(field);
    FieldLimit();
    ValueBelow(field);
    assert IsDigit(field[0]);
  }

  // ---------------------------------------------------------------- round trips

  /** Every text has the same length, is made of digits, and holds the three fields where the parser looks. */
  lemma PrintedLayout(p: Packet)
    ensures var s := Printed(p);
            && |s| == 1471 && s[0] == '0' && (forall i: nat :: 31 <= i < |s| ==> s[i] == '0')
            && AllDigits(s) && HoldsFields(s)
            && s[1..11] == Field(p.packetNumber)
            && s[11..21] == Field(Unsigned(p.sendTime))
            && s[21..31] == Field(p.length)
  {
    hide Field; hide Value;
    FieldDenotes(p.packetNumber);
    FieldDenotes(Unsigned(p.sendTime));
    FieldDenotes(p.length);
  }

  /** The three places where the parser looks all hold ten digits. */
  ghost predicate HoldsFields(s: string) {
    |s| >= 31 && AllDigits(s[1..11]) && AllDigits(s[11..21]) && AllDigits(s[21..31])
  }

  lemma FieldsParse(s: string)
    requires HoldsFields(s)
    ensures var n, t := Value(s[1..11]), Value(s[11..21]);
            && n < FIELD_LIMIT && t < FIELD_LIMIT
            && UnSerialize(s) == Ok(Packet(n, t, Value(s[21..31]) % 0x1_0000))
  {
    hide Parsed; hide Value; hide AllDigits;
    FieldParses(s, 1);
    FieldParses(s, 11);
    FieldParses(s, 21);
  }

  /** What comes back: number and time modulo ten to the tenth, the length exactly; a time below zero as the unsigned
      word that it is. */
  lemma ParsesWhatWasPrinted(p: Packet)
    requires Representable(p)
    ensures var time := if p.sendTime >= 0 then p.sendTime else p.sendTime + 18_446_744_073_709_551_616;
            UnSerialize(Printed(p))
            == Ok(Packet(p.packetNumber % 10_000_000_000, time % 10_000_000_000, p.length))
    ensures UnSerialize(Printed(p))
            == Ok(Packet(p.packetNumber % FIELD_LIMIT, Unsigned(p.sendTime) % FIELD_LIMIT, p.length))
  {
    hide Field; hide Printed; hide UnSerialize; hide Value; hide AllDigits;
    PrintedLayout(p);
    FieldDenotes(p.packetNumber);
    FieldDenotes(Unsigned(p.sendTime));
    FieldDenotes(p.length);
    FieldsParse(Printed(p));
  }

  /** The round trip is the identity exactly for numbers and times below ten to the tenth. */
  lemma RoundTripIff(p: Packet)
    requires Representable(p)
    ensures UnSerialize(Printed(p)) == Ok(p)
       <==> p.packetNumber < 10_000_000_000 && 0 <= p.sendTime < 10_000_000_000
  {
    hide UnSerialize; hide Printed;
    ParsesWhatWasPrinted(p);
  }

  /** Two packets have the same text exactly when they agree modulo ten to the tenth. */
  lemma SameTextIff(p: Packet, q: Packet)
    requires Representable(p) && Representable(q)
    ensures Printed(p) == Printed(q) <==>
            && p.packetNumber % FIELD_LIMIT == q.packetNumber % FIELD_LIMIT
            && Unsigned(p.sendTime) % FIELD_LIMIT == Unsigned(q.sendTime) % FIELD_LIMIT
            && p.length == q.length
  {
    hide UnSerialize; hide Padded;
    ParsesWhatWasPrinted(p);
    ParsesWhatWasPrinted(q);
  }

  lemma DigitsWithin(s: string, a: nat, b: nat, c: nat, d: nat)
    requires a <= c <= d <= b <= |s| && AllDigits(s[a..b])
    ensures AllDigits(s[c..d])
  {
    assert forall i: nat :: i < d - c ==> s[c..d][i] == s[a..b][i + c - a];
  }

  /** The other way round: a text with digits in its three fields parses, and printing the result gives the fields back,
      the third exactly when its length fits 16 bits. */
  lemma PrintsWhatWasParsed(s: string)
    requires |s| >= 31 && AllDigits(s[1..31])
    ensures UnSerialize(s).Ok?
    ensures var t := Printed(UnSerialize(s).value);
            |t| >= 31 && t[1..21] == s[1..21] && (Value(s[21..31]) < 0x1_0000 <==> t[1..31] == s[1..31])
  {
    hide Field; hide Printed; hide UnSerialize; hide Value; hide AllDigits;
    DigitsWithin(s, 1, 31, 1, 11);
    DigitsWithin(s, 1, 31, 11, 21);
    DigitsWithin(s, 1, 31, 21, 31);
    FieldsParse(s);
    var p := UnSerialize(s).value;
    PrintedLayout(p);
    FieldIs(s[1..11], p.packetNumber);
    FieldIs(s[11..21], Unsigned(p.sendTime));
    FieldDenotes(p.length);
    if Value(s[21..31]) < 0x1_0000 {
      FieldIs(s[21..31], p.length);
    } else {
      assert Value(Field(p.length)) != Value(s[21..31]);
    }
    SlicesJoin(s);
    SlicesJoin(Printed(p));
  }

  lemma SlicesJoin(s: string)
    requires |s| >= 31
    ensures s[1..21] == s[1..11] + s[11..21] && s[1..31] == s[1..21] + s[21..31] && s[1..31][20..30] == s[21..31]
  {
  }

  // ---------------------------------------------------------------- any text

  /** `s` is blanks, a sign or none, digits, and something that does not go on with a digit. */
  ghost predicate IsNumeral(s: string, blanks: string, sign: string, digits: string, rest: string) {
    && s == blanks + sign + digits + rest
    && (forall i: nat :: i < |blanks| ==> blanks[i] in {' ', '\t', '\n', '\r', 11 as char, 12 as char})
    && sign in {"", "+", "-"}
    && digits != [] && AllDigits(digits)
    && (rest == [] || !IsDigit(rest[0]))
  }

  lemma {:induction false} SkipsBlanks(blanks: string, t: string)
    requires forall i: nat :: i < |blanks| ==> IsBlank(blanks[i])
    requires t == [] || !IsBlank(t[0])
    ensures SkipBlanks(blanks + t) == t
  {
    if blanks == [] {
      assert blanks + t == t;
    } else {
      assert (blanks + t)[1..] == blanks[1..] + t;
      SkipsBlanks(blanks[1..], t);
    }
  }

  lemma {:induction false} TakesDigits(digits: string, rest: string)
    requires AllDigits(digits) && (rest == [] || !IsDigit(rest[0]))
    ensures DigitPrefix(digits + rest) == digits
  {
    if digits == [] {
      assert digits + rest == rest;
    } else {
      assert (digits + rest)[1..] == digits[1..] + rest;
      TakesDigits(digits[1..], rest);
    }
  }

  /** A numeral is read as the number it denotes, as a word: one with a minus as the difference to two to the 64th, and
      one above the largest word not at all. */
  lemma NumeralIsRead(s: string, blanks: string, sign: string, digits: string, rest: string)
    requires IsNumeral(s, blanks, sign, digits, rest)
    ensures var n := Value(digits);
            Stoul(s) == if n >= 18_446_744_073_709_551_616 then Err(OutOfRange)
                        else Ok(if sign == "-" && n > 0 then 18_446_744_073_709_551_616 - n else n)
  {
    hide Value;
    var t := sign + digits + rest;
    assert blanks + t == s;
    SkipsBlanks(blanks, t);
    TakesDigits(digits, rest);
    if sign == "" {
      assert t == digits + rest;
    } else {
      assert t[1..] == digits + rest;
    }
  }

  lemma {:induction false} BlanksOf(s: string) returns (blanks: string)
    ensures s == blanks + SkipBlanks(s) && (forall i: nat :: i < |blanks| ==> IsBlank(blanks[i]))
    ensures SkipBlanks(s) == [] || !IsBlank(SkipBlanks(s)[0])
  {
    blanks := [];
    if s != [] && IsBlank(s[0]) {
      blanks := BlanksOf(s[1..]);
      blanks := [s[0]] + blanks;
    }
  }

  lemma {:induction false} DigitsOf(s: string) returns (rest: string)
    ensures s == DigitPrefix(s) + rest && AllDigits(DigitPrefix(s)) && (rest == [] || !IsDigit(rest[0]))
  {
    rest := s;
    if s != [] && IsDigit(s[0]) {
      rest := DigitsOf(s[1..]);
    }
  }

  /** ... and nothing else is read. */
  lemma OnlyNumeralsAreRead(s: string)
    ensures Stoul(s) == Err(InvalidArgument) <==> !exists b, g, d, r :: IsNumeral(s, b, g, d, r)
  {
    hide Value; hide IsNumeral;
    if exists b, g, d, r :: IsNumeral(s, b, g, d, r) {
      var b, g, d, r :| IsNumeral(s, b, g, d, r);
      NumeralIsRead(s, b, g, d, r);
    } else if Stoul(s) != Err(InvalidArgument) {
      ReadIsNumeral(s);
    }
  }

  lemma ReadIsNumeral(s: string)
    requires Stoul(s) != Err(InvalidArgument)
    ensures exists b, g, d, r :: IsNumeral(s, b, g, d, r)
  {
    hide Value; hide SkipBlanks; hide DigitPrefix;
    var blanks := BlanksOf(s);
    var t := SkipBlanks(s);
    var sign := if t != [] && (t[0] == '-' || t[0] == '+') then [t[0]] else [];
    var u := if sign == [] then t else t[1..];
    var rest := DigitsOf(u);
    assert t == sign + u;
    Joined(s, blanks, sign, DigitPrefix(u), rest);
  }

  lemma Joined(s: string, blanks: string, sign: string, digits: string, rest: string)
    requires s == blanks + (sign + (digits + rest)) && sign in {[], ['-'], ['+']}
    requires forall i: nat :: i < |blanks| ==> IsBlank(blanks[i])
    requires digits != [] && AllDigits(digits) && (rest == [] || !IsDigit(rest[0]))
    ensures IsNumeral(s, blanks, sign, digits, rest)
  {
    assert s == blanks + sign + digits + rest;
  }

  lemma {:induction false} Pow10Grows(a: nat, b: nat)
    requires a <= b
    ensures Pow10(a) <= Pow10(b)
    decreases b - a
  {
    if a < b {
      Pow10Grows(a, b - 1);
    }
  }

  /** The text of a field: ten characters, or fewer at the end of the text. */
  function FieldText(s: string, pos: nat): string
    requires pos <= |s|
  {
    if |s| < pos + 10 then s[pos..] else s[pos..pos + 10]
  }

  function Denoted(sign: string, digits: string): int {
    if sign == "-" then 0 - Value(digits) as int else Value(digits)
  }

  /** The field at `pos` reads as the whole number `n`. */
  ghost predicate ReadsAs(s: string, pos: nat, n: int) {
    pos <= |s| && exists b, g, d, r ::
      IsNumeral(FieldText(s, pos), b, g, d, r) && n == Denoted(g, d)
  }

  ghost predicate Reads(s: string, pos: nat) {
    exists n: int :: ReadsAs(s, pos, n)
  }

  lemma FieldIsRead(s: string, pos: nat)
    ensures |s| < pos ==> Parsed(s, pos) == Err(OutOfRange) && !Reads(s, pos)
    ensures pos <= |s| ==> Parsed(s, pos) == Stoul(FieldText(s, pos))
    ensures pos <= |s| && !Reads(s, pos) ==> Parsed(s, pos) == Err(InvalidArgument)
    ensures Parsed(s, pos).Ok? <==> Reads(s, pos)
  {
    hide Value; hide IsNumeral; hide Stoul;
    if pos <= |s| {
      var field := FieldText(s, pos);
      assert s[pos..|s|] == s[pos..];
      OnlyNumeralsAreRead(field);
      if exists b, g, d, r :: IsNumeral(field, b, g, d, r) {
        var b, g, d, r :| IsNumeral(field, b, g, d, r);
        assert ReadsAs(s, pos, Denoted(g, d));
        ReadsModuloWord(s, pos, Denoted(g, d));
      }
    }
  }

  lemma ReadsModuloWord(s: string, pos: nat, n: int)
    requires ReadsAs(s, pos, n)
    ensures -10_000_000_000 < n < 10_000_000_000
    ensures Parsed(s, pos) == Ok(n % 18_446_744_073_709_551_616)
  {
    hide Value; hide Stoul; hide Pow10;
    var field := FieldText(s, pos);
    assert s[pos..|s|] == s[pos..];
    var b, g, d, r :| IsNumeral(field, b, g, d, r) && n == Denoted(g, d);
    NumeralIsRead(field, b, g, d, r);
    ValueBelow(d);
    Pow10Grows(|d|, 10);
    FieldLimit();
  }

  /** The casts of the parser, on what a field can read as. */
  lemma CastsOf(n: int)
    requires -10_000_000_000 < n < 10_000_000_000
    ensures Signed(n % 18_446_744_073_709_551_616) == n
    ensures n % 18_446_744_073_709_551_616 % 0x1_0000 == n % 0x1_0000
  {
  }

  lemma ParsesNumbers(s: string, n: int, t: int, l: int)
    requires ReadsAs(s, 1, n) && ReadsAs(s, 11, t) && ReadsAs(s, 21, l)
    ensures UnSerialize(s) == Ok(Packet(n % 18_446_744_073_709_551_616, t, l % 0x1_0000))
  {
    hide ReadsAs; hide Parsed; hide Signed;
    ReadsModuloWord(s, 1, n);
    ReadsModuloWord(s, 11, t);
    ReadsModuloWord(s, 21, l);
    CastsOf(t);
    CastsOf(l);
  }

  /** What the parser makes of any text: it reads three fields of ten characters, each a number with or without a sign
      after blanks and before anything else. A time below zero comes out below zero, a number as a word of 64 bits and
      a length as one of 16. It fails exactly when some field does not read: for its range when the text ends before
      the field, and as an invalid argument otherwise. */
  lemma ParsesAnyText(s: string)
    ensures UnSerialize(s).Ok? <==> Reads(s, 1) && Reads(s, 11) && Reads(s, 21)
    ensures forall n: int, t: int, l: int :: ReadsAs(s, 1, n) && ReadsAs(s, 11, t) && ReadsAs(s, 21, l) ==>
              UnSerialize(s) == Ok(Packet(n % 18_446_744_073_709_551_616, t, l % 0x1_0000))
    ensures UnSerialize(s) == Err(OutOfRange)
       <==> |s| < 1 || (Reads(s, 1) && |s| < 11) || (Reads(s, 1) && Reads(s, 11) && |s| < 21)
  {
    hide ReadsAs; hide Parsed; hide Reads; hide Signed; hide Stoul; hide FieldText;
    FieldIsRead(s, 1);
    FieldIsRead(s, 11);
    FieldIsRead(s, 21);
    forall n: int, t: int, l: int | ReadsAs(s, 1, n) && ReadsAs(s, 11, t) && ReadsAs(s, 21, l)
      ensures UnSerialize(s) == Ok(Packet(n % 18_446_744_073_709_551_616, t, l % 0x1_0000))
    {
      ParsesNumbers(s, n, t, l);
    }
  }
}
