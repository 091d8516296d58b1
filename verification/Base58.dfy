/**
 The Base58 codec of the crypto SDK.

 `Encoded` and `Decoded` are the reference: read the bytes as one number, write that
 number in the other base, and carry the leading zeroes over as '1's.  The methods
 are the in-place conversions of the SDK, with their sized buffers and their shortcuts
 past the digits not yet reached.
 */
module Base58 {
  import opened Wrappers
  import opened Digits

  // The alphabet, cut where it skips a character: 'I', 'O' and 'l' look like '1' and '0'.
  const DIGITS := "123456789"
  const UPPER_A_H := "ABCDEFGH"
  const UPPER_J_N := "JKLMN"
  const UPPER_P_Z := "PQRSTUVWXYZ"
  const LOWER_A_K := "abcdefghijk"
  const LOWER_M_Z := "mnopqrstuvwxyz"
  const ALPHABET := DIGITS + UPPER_A_H + UPPER_J_N + UPPER_P_Z + LOWER_A_K + LOWER_M_Z
  const ENCODED_ZERO := '1'
  const WHITESPACE := ' '

  datatype Error = InvalidCharacter(c: char)

  // The alphabet

  /** The position of c in s, or |s| when there is none. */
  function IndexOf(s: string, c: char): (r: nat)
    ensures r <= |s|
    ensures r < |s| ==> s[r] == c
    ensures forall k :: 0 <= k < r ==> s[k] != c
  {
    if s == "" || s[0] == c then 0 else 1 + IndexOf(s[1..], c)
  }

  function DigitOf(c: char): nat {
    IndexOf(ALPHABET, c)
  }

  predicate InAlphabet(c: char) {
    DigitOf(c) < 58
  }

  function CharOf(d: int): char {
    if 0 <= d < 58 then ALPHABET[d] else ENCODED_ZERO
  }

  function CharsOf(digits: seq<int>): string {
    seq(|digits|, i requires 0 <= i < |digits| => CharOf(digits[i]))
  }

  function DigitsOf(s: string): seq<int> {
    seq(|s|, i requires 0 <= i < |s| => DigitOf(s[i]))
  }

  lemma RunsAreConsecutive()
    ensures |DIGITS| == 9 && forall i :: 0 <= i < 9 ==> DIGITS[i] as int == 49 + i
    ensures |UPPER_A_H| == 8 && forall i :: 0 <= i < 8 ==> UPPER_A_H[i] as int == 65 + i
    ensures |UPPER_J_N| == 5 && forall i :: 0 <= i < 5 ==> UPPER_J_N[i] as int == 74 + i
    ensures |UPPER_P_Z| == 11 && forall i :: 0 <= i < 11 ==> UPPER_P_Z[i] as int == 80 + i
    ensures |LOWER_A_K| == 11 && forall i :: 0 <= i < 11 ==> LOWER_A_K[i] as int == 97 + i
    ensures |LOWER_M_Z| == 14 && forall i :: 0 <= i < 14 ==> LOWER_M_Z[i] as int == 109 + i
  {
  }

  lemma AlphabetAscends()
    ensures |ALPHABET| == 58
    ensures forall i, j :: 0 <= i < j < 58 ==> ALPHABET[i] < ALPHABET[j]
  {
    RunsAreConsecutive();
    forall i | 0 <= i < 58
      ensures ALPHABET[i] as int == i + (if i < 9 then 49 else if i < 17 then 56 else if i < 22 then 57
                                         else if i < 33 then 58 else if i < 44 then 64 else 65)
    {
    }
  }

  lemma {:induction false} DigitOfChar(d: int)
    requires 0 <= d < 58
    ensures InAlphabet(CharOf(d)) && DigitOf(CharOf(d)) == d
  {
    AlphabetAscends();
  }

  lemma {:induction false} CharOfDigit(c: char)
    requires InAlphabet(c)
    ensures DigitOf(c) < 58 && CharOf(DigitOf(c)) == c
  {
    AlphabetAscends();
  }

  lemma {:induction false} DigitsOfChars(digits: seq<int>)
    requires InBase(digits, 58)
    ensures DigitsOf(CharsOf(digits)) == digits && AllInAlphabet(CharsOf(digits))
  {
    forall i | 0 <= i < |digits|
      ensures InAlphabet(CharsOf(digits)[i]) && DigitsOf(CharsOf(digits))[i] == digits[i]
    {
      DigitOfChar(digits[i]);
    }
  }

  lemma {:induction false} CharsOfDigits(s: string)
    requires AllInAlphabet(s)
    ensures InBase(DigitsOf(s), 58) && CharsOf(DigitsOf(s)) == s
  {
    forall i | 0 <= i < |s|
      ensures 0 <= DigitsOf(s)[i] < 58 && CharsOf(DigitsOf(s))[i] == s[i]
    {
      CharOfDigit(s[i]);
    }
  }

  // The reference codec

  ghost predicate AllInAlphabet(s: string) {
    forall i :: 0 <= i < |s| ==> InAlphabet(s[i])
  }

  function Encoded(data: seq<Byte>): string {
    CharsOf(Convert(data, 256, 58))
  }

  function TrimLeft(s: string): (r: string)
    ensures r != "" ==> r[0] != WHITESPACE
  {
    if s != "" && s[0] == WHITESPACE then TrimLeft(s[1..]) else s
  }

  function TrimRight(s: string): (r: string)
    ensures r <= s
    ensures r != "" ==> r[|r| - 1] != WHITESPACE
  {
    if s != "" && s[|s| - 1] == WHITESPACE then TrimRight(s[..|s| - 1]) else s
  }

  /** Without its outer spaces, except that a string of spaces only stays as it is. */
  function Trimmed(s: string): string {
    if TrimLeft(s) == "" then s else TrimRight(TrimLeft(s))
  }

  /** The position of the first character outside the alphabet, or |s|. */
  function FirstInvalid(s: string): (n: nat)
    ensures n <= |s|
    ensures forall i :: 0 <= i < n ==> InAlphabet(s[i])
    ensures n < |s| ==> !InAlphabet(s[n])
  {
    if s == "" || !InAlphabet(s[0]) then 0 else 1 + FirstInvalid(s[1..])
  }

  function BytesOf(digits: seq<int>): seq<Byte>
    requires InBase(digits, 256)
  {
    digits
  }

  /** Decoding that does not forgive spaces. */
  function DecodedExactly(str: string): Result<seq<Byte>, Error> {
    var bad := FirstInvalid(str);
    if bad < |str| then Failure(InvalidCharacter(str[bad]))
    else
      CharsOfDigits(str);
      ConvertKeeps(DigitsOf(str), 58, 256);
      Success(BytesOf(Convert(DigitsOf(str), 58, 256)))
  }

  function Decoded(s: string): Result<seq<Byte>, Error> {
    DecodedExactly(Trimmed(s))
  }

  // The round trips

  lemma SpaceIsNoDigit()
    ensures !InAlphabet(WHITESPACE)
  {
    RunsAreConsecutive();
  }

  lemma {:induction false} NothingToTrim(s: string)
    requires AllInAlphabet(s)
    ensures Trimmed(s) == s
  {
    SpaceIsNoDigit();
    if s != "" {
      assert InAlphabet(s[0]) && InAlphabet(s[|s| - 1]);
      assert TrimLeft(s) == s && TrimRight(s) == s;
    }
  }

  lemma {:induction false} NothingInvalid(s: string)
    ensures FirstInvalid(s) == |s| <==> AllInAlphabet(s)
  {
    if FirstInvalid(s) < |s| {
      assert !InAlphabet(s[FirstInvalid(s)]);
    }
  }

  /** Every byte string survives encoding, leading zeros included. */
  lemma {:induction false} DecodeOfEncode(data: seq<Byte>)
    ensures AllInAlphabet(Encoded(data))
    ensures DecodedExactly(Encoded(data)) == Decoded(Encoded(data)) == Success(data)
  {
    ConvertKeeps(data, 256, 58);
    DigitsOfChars(Convert(data, 256, 58));
    NothingToTrim(Encoded(data));
    NothingInvalid(Encoded(data));
    ConvertRoundTrip(data, 256, 58);
  }

  /** Decoding without forgiving spaces accepts exactly the alphabet, and encoding gives the text back. */
  lemma {:induction false} EncodeOfDecodeExactly(s: string)
    ensures DecodedExactly(s).Success? <==> AllInAlphabet(s)
    ensures DecodedExactly(s).Success? ==> Encoded(DecodedExactly(s).value) == s
  {
    NothingInvalid(s);
    if AllInAlphabet(s) {
      CharsOfDigits(s);
      ConvertRoundTrip(DigitsOf(s), 58, 256);
    }
  }

  /** Decoding accepts exactly the alphabet between outer spaces, and forgets only those spaces. */
  lemma {:induction false} EncodeOfDecode(s: string)
    ensures Decoded(s).Success? <==> AllInAlphabet(Trimmed(s))
    ensures Decoded(s).Success? ==> Encoded(Decoded(s).value) == Trimmed(s)
  {
    EncodeOfDecodeExactly(Trimmed(s));
  }

  lemma {:induction false} TrimLeftSpaces(m: nat, s: string)
    requires s == "" || s[0] != ' '
    ensures TrimLeft(seq(m, _ => ' ') + s) == s
  {
    var t := seq(m, _ => ' ') + s;
    if m == 0 {
      assert t == s;
    } else {
      assert t[1..] == seq(m - 1, _ => ' ') + s;
      TrimLeftSpaces(m - 1, s);
    }
  }

  lemma {:induction false} TrimRightSpaces(s: string, n: nat)
    requires s != "" && s[|s| - 1] != ' '
    ensures TrimRight(s + seq(n, _ => ' ')) == s
  {
    var t := s + seq(n, _ => ' ');
    if n == 0 {
      assert t == s;
    } else {
      assert t[..|t| - 1] == s + seq(n - 1, _ => ' ');
      TrimRightSpaces(s, n - 1);
    }
  }

  /** Any number of outer spaces is forgiven. */
  lemma OuterSpacesAreSkipped(m: nat, s: string, n: nat)
    requires s != "" && s[0] != ' ' && s[|s| - 1] != ' '
    ensures Decoded(seq(m, _ => ' ') + s + seq(n, _ => ' ')) == DecodedExactly(s)
  {
    var right := s + seq(n, _ => ' ');
    assert seq(m, _ => ' ') + s + seq(n, _ => ' ') == seq(m, _ => ' ') + right;
    TrimLeftSpaces(m, right);
    TrimRightSpaces(s, n);
  }

  /** Nothing but spaces is refused because of the first of them. */
  lemma OnlySpacesAreRefused(n: nat)
    requires n > 0
    ensures Decoded(seq(n, _ => ' ')) == Failure(InvalidCharacter(' '))
  {
    var s := seq(n, _ => ' ');
    assert seq(n, _ => ' ') + "" == s;
    TrimLeftSpaces(n, "");
    SpaceIsNoDigit();
  }

  lemma {:induction false} EncodedInjective(a: seq<Byte>, b: seq<Byte>)
    requires Encoded(a) == Encoded(b)
    ensures a == b
  {
    DecodeOfEncode(a);
    DecodeOfEncode(b);
  }

  // The buffer sizes

  lemma Square(b: nat, e: nat, p: nat)
    requires Pow(b, e) == p
    ensures Pow(b, e + e) == p * p
  {
    PowAdd(b, e, e);
  }

  lemma PowersOf58()
    ensures Pow(58, 36) == 3043741517681573408154032751732621616256793128331902261559033856
    ensures Pow(58, 37) == 58 * 3043741517681573408154032751732621616256793128331902261559033856
    ensures Pow(58, 71) ==
            159730386663078066345306447337161584696769904898410078913243029577507397293846405390982563136983769384625594118558891106107392
  {
    assert Pow(58, 9) == 7427658739644928;
    Square(58, 9, 7427658739644928);
    Square(58, 18, 55170114352623680311867516125184);
    PowAdd(58, 36, 35);
    assert Pow(58, 36) == 58 * Pow(58, 35);
    assert Pow(58, 35) == 52478302028992644968172978478148648556151605660894866578604032;
  }

  lemma PowersOf256()
    ensures Pow(256, 26) == 411376139330301510538742295639337626245683966408394965837152256
    ensures Pow(256, 27) == 256 * 411376139330301510538742295639337626245683966408394965837152256
    ensures Pow(256, 52) ==
            169230328010303641331690318856389386196071598838855992136870091590247882556495704531248437872567112920983350278405979725889536
  {
    assert Pow(256, 13) == 20282409603651670423947251286016;
    Square(256, 13, 20282409603651670423947251286016);
    Square(256, 26, 411376139330301510538742295639337626245683966408394965837152256);
  }

  /** 138 / 100 Base58 digits a byte, and one more, are always enough. */
  lemma EncodeSizeSuffices(n: nat)
    ensures Pow(256, n) <= Pow(58, n * 138 / 100 + 1)
  {
    assert Pow(256, 8) == 18446744073709551616 && Pow(58, 11) == 24986644000165537792;
    SizeSuffices(256, 58, 11, 8, n, n * 138 / 100 + 1);
  }

  /** 733 / 1000 bytes a Base58 digit, and one more, are always enough. */
  lemma DecodeSizeSuffices(n: nat)
    ensures Pow(58, n) <= Pow(256, n * 733 / 1000 + 1)
  {
    PowersOf58();
    PowersOf256();
    SizeSuffices(58, 256, 52, 71, n, n * 733 / 1000 + 1);
  }

  // The in-place conversions

  /** The digits of `base` in buf, all zero up to `high`, stand for `value`. */
  ghost predicate Holds(buf: seq<int>, base: nat, high: int, value: int) {
    && -1 <= high < |buf|
    && InBase(buf, base)
    && (forall k :: 0 <= k <= high ==> buf[k] == 0)
    && Value(buf, base) == value
  }

  /**
   Part of a carry loop that multiplies a buffer by mul and adds `add`: the digits after j are
   rewritten, those up to j are as they were, and the carry, put in front of the rewritten ones
   as an oversized digit, makes up the difference.
   */
  ghost predicate Carrying(before: seq<int>, now: seq<int>, j: int, base: nat, carry: int, mul: nat, add: int) {
    && |now| == |before|
    && -1 <= j < |now|
    && 0 <= carry < mul
    && InBase(before, base)
    && InBase(now, base)
    && now[..j + 1] == before[..j + 1]
    && Value([carry] + now[j + 1..], base) == mul * Value(before[j + 1..], base) + add
  }

  lemma CarryStart(before: seq<int>, base: nat, mul: nat, add: int)
    requires InBase(before, base) && 0 <= add < mul
    ensures Carrying(before, before, |before| - 1, base, add, mul, add)
  {
    assert before[|before|..] == [];
    assert [add] + before[|before|..] == [add];
    ValueOfSingle(add, base);
  }

  lemma QuotientBound(c: nat, mul: nat, base: nat)
    requires base > 0 && c < mul * base
    ensures 0 <= c / base < mul
  {
    assert c / base * base <= c;
    if c / base >= mul {
      MulMonotone(mul, c / base, base);
    }
  }

  lemma ProductBound(carry: nat, mul: nat, digit: nat, base: nat)
    requires carry < mul && digit < base
    ensures carry + mul * digit < mul * base
  {
    MulMonotone(digit + 1, base, mul);
    assert (digit + 1) * mul == mul * digit + mul;
  }

  /** The next carry is a digit again: it never outgrows the multiplier. */
  lemma CarryStaysSmall(carry: nat, mul: nat, digit: nat, base: nat)
    requires carry < mul && digit < base
    ensures 0 <= (carry + mul * digit) / base < mul
  {
    ProductBound(carry, mul, digit, base);
    QuotientBound(carry + mul * digit, mul, base);
  }

  /** Splitting an oversized leading digit into a digit and a carry keeps the value. */
  lemma SplitOversized(c: nat, low: seq<int>, base: nat)
    requires base > 0
    ensures Value([c / base] + ([c % base] + low), base) == Value([c] + low, base)
  {
    var two := [c / base] + [c % base];
    assert [c / base] + ([c % base] + low) == two + low;
    ValueConcat(two, low, base);
    ValueConcat([c], low, base);
    ValueConcat([c / base], [c % base], base);
    ValueOfSingle(c, base);
    ValueOfSingle(c / base, base);
    ValueOfSingle(c % base, base);
    assert Pow(base, 1) == base * Pow(base, 0) == base;
    assert Value(two, base) == c;
  }

  lemma Distribute(c: int, m: int, d: int, w: int, b: int)
    ensures (c + m * d) * w == c * w + m * (d * w)
    ensures m * (d * w + b) == m * (d * w) + m * b
  {
  }

  /** Multiplying one more digit and adding it to the carry. */
  lemma TakeDigit(carry: int, low: seq<int>, digit: int, lowBefore: seq<int>, base: nat, mul: nat, add: int)
    requires |low| == |lowBefore|
    requires Value([carry] + low, base) == mul * Value(lowBefore, base) + add
    ensures Value([carry + mul * digit] + low, base) == mul * Value([digit] + lowBefore, base) + add
  {
    var w := Pow(base, |low|);
    ValueConcat([carry], low, base);
    ValueConcat([carry + mul * digit], low, base);
    ValueConcat([digit], lowBefore, base);
    ValueOfSingle(carry, base);
    ValueOfSingle(carry + mul * digit, base);
    ValueOfSingle(digit, base);
    Distribute(carry, mul, digit, w, Value(lowBefore, base));
  }

  /** Out of digits, the carry is zero: the result fits. */
  lemma CarrySpent(before: seq<int>, now: seq<int>, base: nat, carry: nat, mul: nat, add: int)
    requires Carrying(before, now, -1, base, carry, mul, add)
    requires mul * Value(before, base) + add < Pow(base, |now|)
    ensures carry == 0
  {
    assert now[0..] == now && before[0..] == before;
    ValueConcat([carry], now, base);
    ValueOfSingle(carry, base);
    ValueBound(now, base);
    if carry >= 1 {
      MulMonotone(1, carry, Pow(base, |now|));
    }
  }

  /** One turn of the loop: c is the carry with the next digit multiplied in. */
  lemma CarryTurn(before: seq<int>, now: seq<int>, next: seq<int>, j: nat, base: nat, carry: nat, mul: nat, add: int)
    requires base > 0
    requires Carrying(before, now, j, base, carry, mul, add)
    requires next == now[j := (carry + mul * now[j]) % base]
    ensures Carrying(before, next, j - 1, base, (carry + mul * now[j]) / base, mul, add)
  {
    var c := carry + mul * now[j];
    assert next[j..] == [c % base] + now[j + 1..];
    assert before[j..] == [before[j]] + before[j + 1..];
    assert now[j] == now[..j + 1][j] == before[..j + 1][j];
    CarryStaysSmall(carry, mul, now[j], base);
    TakeDigit(carry, now[j + 1..], now[j], before[j + 1..], base, mul, add);
    SplitOversized(c, now[j + 1..], base);
    assert next[..j] == now[..j + 1][..j] == before[..j + 1][..j] == before[..j];
  }

  /** Stopping early is safe: the digits not reached were zero and still are. */
  lemma CarryDone(before: seq<int>, now: seq<int>, j: int, high: int, base: nat, mul: nat, add: int, value: int)
    requires Holds(before, base, high, value)
    requires Carrying(before, now, j, base, 0, mul, add)
    requires j <= high
    ensures Holds(now, base, j, mul * value + add)
  {
    assert Value([0] + now[j + 1..], base) == Value(now[j + 1..], base) by {
      ValueConcat([0], now[j + 1..], base);
      ValueOfSingle(0, base);
    }
    assert before == Zeros(j + 1) + before[j + 1..];
    assert now == Zeros(j + 1) + now[j + 1..] by {
      forall k | 0 <= k < j + 1
        ensures now[k] == 0
      {
        assert now[k] == now[..j + 1][k] == before[..j + 1][k];
      }
    }
    LeadingZerosDoNotCount(j + 1, before[j + 1..], base);
    LeadingZerosDoNotCount(j + 1, now[j + 1..], base);
  }

  /** Reading one more digit multiplies what was read and adds the digit. */
  lemma ValueOfPrefix(digits: seq<int>, i: nat, base: nat)
    requires i < |digits|
    ensures Value(digits[..i + 1], base) == Value(digits[..i], base) * base + digits[i]
  {
    assert digits[..i + 1][..i] == digits[..i];
  }

  /** What is left of a buffer after its leading zeros are the digits of its value. */
  lemma TailIsDigits(buf: seq<int>, base: nat, j: nat)
    requires base >= 2 && InBase(buf, base) && j <= |buf|
    requires forall k :: 0 <= k < j ==> buf[k] == 0
    requires j < |buf| ==> buf[j] != 0
    ensures Value(buf, base) >= 0
    ensures buf[j..] == ToDigits(Value(buf, base), base)
  {
    LeadingZerosUnique(buf, j);
    SplitLeadingZeros(buf, base);
  }

  /** One digit further into a number that fits when complete. */
  lemma ReadOneMore(digits: seq<int>, i: nat, from: nat, room: nat)
    requires from > 0 && i < |digits| && InBase(digits[..i + 1], from) && Pow(from, |digits|) <= room
    ensures 0 <= Value(digits[..i], from)
    ensures Value(digits[..i + 1], from) == Value(digits[..i], from) * from + digits[i] < room
  {
    ValueOfPrefix(digits, i, from);
    forall k | 0 <= k < i
      ensures 0 <= digits[..i][k] < from
    {
      assert digits[..i + 1][k] == digits[k];
    }
    ValueBound(digits[..i], from);
    ValueBound(digits[..i + 1], from);
    PowMonotoneInExponent(from, i + 1, |digits|);
  }

  /** Skipping the leading zeros first and putting them back last is the base conversion. */
  lemma ZerosSetAside(digits: seq<int>, from: nat, to: nat)
    requires InBase(digits, from) && to >= 2
    ensures var n := LeadingZeros(digits);
            && Value(digits[n..], from) >= 0
            && Zeros(n) + ToDigits(Value(digits[n..], from), to) == Convert(digits, from, to)
  {
    var n := LeadingZeros(digits);
    assert digits == Zeros(n) + digits[n..];
    LeadingZerosDoNotCount(n, digits[n..], from);
    ValueBound(digits[n..], from);
  }

  method CountZeroes(data: seq<Byte>) returns (zeroes: nat)
    ensures zeroes == LeadingZeros(data)
  {
    zeroes := 0;
    while zeroes < |data| && data[zeroes] == 0
      invariant zeroes <= |data|
      invariant forall k :: 0 <= k < zeroes ==> data[k] == 0
    {
      zeroes := zeroes + 1;
    }
    LeadingZerosUnique(data, zeroes);
  }

  /**
   The inner loop of `Encode`: buf = buf * 256 + byte.  It has no index check of its own; the room
   asked for is what keeps j from stepping below 0 and leaves no carry.
   */
  method EncodeByte(buf: array<Byte>, high: int, byte: Byte, ghost value: nat) returns (j: int)
    requires Holds(buf[..], 58, high, value)
    requires value * 256 + byte < Pow(58, buf.Length)
    modifies buf
    ensures Holds(buf[..], 58, j, value * 256 + byte)
  {
    ghost var before: seq<int> := buf[..];
    var carry: int;
    carry, j := byte, buf.Length - 1;
    CarryStart(before, 58, 256, byte);
    while j > high || carry != 0
      invariant Carrying(before, buf[..], j, 58, carry, 256, byte)
      decreases j
    {
      ghost var now: seq<int>, c := buf[..], carry;
      if j == -1 {
        CarrySpent(before, now, 58, carry, 256, byte);
        assert false;
      }
      var digit: int := buf[j];
      carry := carry + 256 * digit;
      buf[j] := carry % 58;
      CarryTurn(before, now, buf[..], j, 58, c, 256, byte);
      carry := carry / 58;
      j := j - 1;
    }
    CarryDone(before, buf[..], j, high, 58, 256, byte, value);
  }

  method Encode(data: seq<Byte>) returns (str: string)
    ensures str == Encoded(data)
  {
    if |data| == 0 {
      return "";
    }
    var zeroes := CountZeroes(data);
    ghost var rest: seq<int> := data[zeroes..];

    var size := (|data| - zeroes) * 138 / 100 + 1;
    var buf := new Byte[size](_ => 0);
    EncodeSizeSuffices(|rest|);
    assert buf[..] == Zeros(size);
    ValueOfZeros(size, 58);
    var high := EncodeBytes(data, zeroes, buf);
    str := EncodeDigits(buf, zeroes);
    ZerosSetAside(data, 256, 58);
  }

  /** The main loop of `Encode`. */
  method EncodeBytes(data: seq<Byte>, zeroes: nat, buf: array<Byte>) returns (high: int)
    requires zeroes <= |data| && Pow(256, |data| - zeroes) <= Pow(58, buf.Length)
    requires Holds(buf[..], 58, buf.Length - 1, 0)
    modifies buf
    ensures Holds(buf[..], 58, high, Value(data[zeroes..], 256))
  {
    ghost var rest: seq<int>, value := data[zeroes..], 0;
    assert rest[..0] == [];
    high := buf.Length - 1;
    var i := zeroes;
    while i < |data|
      invariant zeroes <= i <= |data|
      invariant value == Value(rest[..i - zeroes], 256) >= 0
      invariant Holds(buf[..], 58, high, value)
    {
      ReadOneMore(rest, i - zeroes, 256, Pow(58, buf.Length));
      high := EncodeByte(buf, high, data[i], value);
      ghost var byte: int := data[i];
      i, value := i + 1, value * 256 + byte;
    }
    assert rest[..|rest|] == rest;
  }

  lemma CharsOfParts(a: seq<int>, b: seq<int>)
    ensures CharsOf(a + b) == CharsOf(a) + CharsOf(b)
  {
  }

  lemma CharsOfZeros(n: nat)
    ensures CharsOf(Zeros(n)) == seq(n, _ => ENCODED_ZERO)
  {
  }

  /** Writing out the digits of the buffer from `start` on. */
  method WriteDigits(buf: array<Byte>, start: nat, prefix: string) returns (str: string)
    requires start <= buf.Length
    ensures str == prefix + CharsOf(buf[start..])
  {
    str := prefix;
    var j := start;
    while j < buf.Length
      invariant start <= j <= buf.Length
      invariant str == prefix + CharsOf(buf[start..j])
    {
      str := str + [CharOf(buf[j])];
      assert buf[start..j + 1] == buf[start..j] + [buf[j]];
      j := j + 1;
    }
    assert buf[start..buf.Length] == buf[start..];
  }

  /** The end of `Encode`: skip the leading zeros of the buffer and write out the rest. */
  method EncodeDigits(buf: array<Byte>, zeroes: nat) returns (str: string)
    requires InBase(buf[..], 58)
    ensures Value(buf[..], 58) >= 0
    ensures str == CharsOf(Zeros(zeroes) + ToDigits(Value(buf[..], 58), 58))
  {
    var j := 0;
    while j < buf.Length && buf[j] == 0
      invariant 0 <= j <= buf.Length
      invariant forall k :: 0 <= k < j ==> buf[k] == 0
    {
      j := j + 1;
    }
    TailIsDigits(buf[..], 58, j);
    str := WriteDigits(buf, j, seq(zeroes, _ => ENCODED_ZERO));
    CharsOfZeros(zeroes);
    CharsOfParts(Zeros(zeroes), ToDigits(Value(buf[..], 58), 58));
    assert buf[j..] == buf[..][j..];
  }

  /**
   The inner loop of `Decode`: b256 = b256 * 58 + digit, on the last `length` bytes and as many more
   as the carry needs; i counts the bytes rewritten.
   */
  method DecodeDigit(b256: array<Byte>, length: nat, ch: nat, ghost value: nat) returns (i: nat)
    requires length <= b256.Length && ch < 58
    requires Holds(b256[..], 256, b256.Length - 1 - length, value)
    requires value * 58 + ch < Pow(256, b256.Length)
    modifies b256
    ensures i <= b256.Length
    ensures Holds(b256[..], 256, b256.Length - 1 - i, value * 58 + ch)
  {
    ghost var before: seq<int> := b256[..];
    var carry: int := ch;
    var it := b256.Length - 1;
    i := 0;
    CarryStart(before, 256, 58, ch);
    while (carry != 0 || i < length) && it >= 0
      invariant i == b256.Length - 1 - it
      invariant Carrying(before, b256[..], it, 256, carry, 58, ch)
    {
      ghost var now: seq<int>, c := b256[..], carry;
      var digit: int := b256[it];
      carry := carry + 58 * digit;
      b256[it] := carry % 256;
      CarryTurn(before, now, b256[..], it, 256, c, 58, ch);
      carry := carry / 256;
      it, i := it - 1, i + 1;
    }
    if it == -1 {
      CarrySpent(before, b256[..], 256, carry, 58, ch);
    }
    assert carry == 0;
    CarryDone(before, b256[..], it, b256.Length - 1 - length, 256, 58, ch, value);
  }

  method CountOnes(str: string) returns (zeroes: nat)
    ensures AllInAlphabet(str) ==> zeroes == LeadingZeros(DigitsOf(str))
  {
    zeroes := 0;
    while zeroes < |str| && str[zeroes] == ENCODED_ZERO
      invariant zeroes <= |str|
      invariant forall k :: 0 <= k < zeroes ==> str[k] == ENCODED_ZERO
    {
      zeroes := zeroes + 1;
    }
    if AllInAlphabet(str) {
      CharsOfDigits(str);
      DigitOfChar(0);
      RunsAreConsecutive();
      LeadingZerosUnique(DigitsOf(str), zeroes);
    }
  }

  /** Reading one more character of the alphabet. */
  lemma ReadOneChar(s: string, n: nat, room: nat)
    requires n < |s| && (forall k :: 0 <= k <= n ==> InAlphabet(s[k])) && Pow(58, |s|) <= room
    ensures 0 <= Value(DigitsOf(s)[..n], 58)
    ensures Value(DigitsOf(s)[..n + 1], 58) == Value(DigitsOf(s)[..n], 58) * 58 + DigitOf(s[n]) < room
  {
    var digits, from: nat := DigitsOf(s), 58;
    assert InBase(digits[..n + 1], from) by {
      var prefix := digits[..n + 1];
      forall k | 0 <= k < |prefix|
        ensures 0 <= prefix[k] < from
      {
        assert InAlphabet(s[k]);
      }
    }
    ReadOneMore(digits, n, from, room);
  }

  lemma ReadNoChar(s: string)
    ensures Value(DigitsOf(s)[..0], 58) == 0
  {
  }

  lemma ReadAllChars(s: string)
    ensures Value(DigitsOf(s)[..|s|], 58) == Value(DigitsOf(s), 58)
    ensures AllInAlphabet(s) <==> forall k :: 0 <= k < |s| ==> InAlphabet(s[k])
  {
    assert DigitsOf(s)[..|s|] == DigitsOf(s);
  }

  lemma {:induction false} FirstInvalidIs(s: string, n: nat)
    requires n < |s| && !InAlphabet(s[n]) && forall k :: 0 <= k < n ==> InAlphabet(s[k])
    ensures FirstInvalid(s) == n
  {
    assert FirstInvalid(s) >= n;
  }

  /** The main loop of `Decode`. */
  method DecodeChars(str: string, b256: array<Byte>) returns (length: Result<nat, Error>)
    requires Holds(b256[..], 256, b256.Length - 1, 0)
    requires Pow(58, |str|) <= Pow(256, b256.Length)
    modifies b256
    ensures length.Success? <==> AllInAlphabet(str)
    ensures length.Success? ==>
              && length.value <= b256.Length
              && Holds(b256[..], 256, b256.Length - 1 - length.value, Value(DigitsOf(str), 58))
    ensures length.Failure? ==>
              && FirstInvalid(str) < |str|
              && length.error == InvalidCharacter(str[FirstInvalid(str)])
  {
    ghost var value := 0;
    ReadNoChar(str);
    var n, k := 0, 0;
    while k < |str|
      invariant k <= |str| && n <= b256.Length
      invariant forall m :: 0 <= m < k ==> InAlphabet(str[m])
      invariant value == Value(DigitsOf(str)[..k], 58)
      invariant Holds(b256[..], 256, b256.Length - 1 - n, value)
    {
      var ch := DigitOf(str[k]);
      if ch >= 58 {
        FirstInvalidIs(str, k);
        return Failure(InvalidCharacter(str[k]));
      }
      ReadOneChar(str, k, Pow(256, b256.Length));
      n := DecodeDigit(b256, n, ch, value);
      k, value := k + 1, value * 58 + ch;
    }
    ReadAllChars(str);
    return Success(n);
  }

  method Decode(data: string) returns (res: Result<seq<Byte>, Error>)
    ensures res == Decoded(data)
  {
    var str := Trimmed(data);
    var zeroes := CountOnes(str);

    var size := |str| * 733 / 1000 + 1;
    var b256 := new Byte[size](_ => 0);
    DecodeSizeSuffices(|str|);
    assert b256[..] == Zeros(size);
    ValueOfZeros(size, 256);
    var length := DecodeChars(str, b256);
    if length.Failure? {
      return Failure(length.error);
    }
    NothingInvalid(str);
    CharsOfDigits(str);
    var bytes := DecodeBytes(b256, size - length.value, zeroes);
    res := Success(bytes);
  }

  /** The end of `Decode`: skip what is still zero from `start` on and prepend the counted zeroes. */
  method DecodeBytes(b256: array<Byte>, start: nat, zeroes: nat) returns (res: seq<Byte>)
    requires start <= b256.Length && InBase(b256[..], 256)
    requires forall k :: 0 <= k < start ==> b256[k] == 0
    ensures Value(b256[..], 256) >= 0
    ensures res == Zeros(zeroes) + ToDigits(Value(b256[..], 256), 256)
  {
    var it := start;
    while it < b256.Length && b256[it] == 0
      invariant start <= it <= b256.Length
      invariant forall k :: 0 <= k < it ==> b256[k] == 0
    {
      it := it + 1;
    }
    TailIsDigits(b256[..], 256, it);

    res := seq(zeroes, _ => 0);
    ghost var first := it;
    while it < b256.Length
      invariant first <= it <= b256.Length
      invariant res == Zeros(zeroes) + b256[first..it]
    {
      res := res + [b256[it]];
      assert b256[first..it + 1] == b256[first..it] + [b256[it]];
      it := it + 1;
    }
    assert b256[first..b256.Length] == b256[..][first..];
  }
}
