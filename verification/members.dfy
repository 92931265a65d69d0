/**
 The text of a ready-queue member: a zero-padded sequence, a colon and a job id,
 and the byte order in which Redis compares members.
 */
module Members {
  import opened Jobs

  const SEQUENCE_WIDTH: nat := 19
  const TEN_TO_WIDTH: nat := 10_000_000_000_000_000_000

  // ----- Byte order of strings -----

  predicate LexLess(a: string, b: string) {
    b != [] && (a == [] || a[0] < b[0] || (a[0] == b[0] && LexLess(a[1..], b[1..])))
  }

  lemma {:induction false} LexTransitive(a: string, b: string, c: string)
    requires LexLess(a, b) && LexLess(b, c)
    ensures LexLess(a, c)
  {
    if a != [] && a[0] == b[0] && b[0] == c[0] {
      LexTransitive(a[1..], b[1..], c[1..]);
    }
  }

  lemma {:induction false} LexTrichotomy(a: string, b: string)
    ensures LexLess(a, b) || a == b || LexLess(b, a)
    ensures !(LexLess(a, b) && LexLess(b, a))
    ensures !LexLess(a, a)
  {
    if a != [] {
      LexTrichotomy(a[1..], if b == [] then [] else b[1..]);
      if b != [] && a[0] == b[0] {
        assert a == [a[0]] + a[1..] && b == [b[0]] + b[1..];
      }
    }
  }

  // The first difference decides, whatever follows.
  lemma {:induction false} LexAppend(a: string, b: string, x: string, y: string)
    requires |a| == |b|
    requires LexLess(a, b) || (a == b && LexLess(x, y))
    ensures LexLess(a + x, b + y)
  {
    if a == [] {
      assert a + x == x && b + y == y;
    } else {
      assert (a + x)[1..] == a[1..] + x && (b + y)[1..] == b[1..] + y;
      if a[0] == b[0] {
        LexAppend(a[1..], b[1..], x, y);
      }
    }
  }

  // ----- Decimal text -----

  function Digit(d: nat): char
    requires d < 10
  {
    '0' + d as char
  }

  predicate IsDigit(c: char) {
    '0' <= c <= '9'
  }

  function Decimal(n: nat): string {
    if n < 10 then [Digit(n)] else Decimal(n / 10) + [Digit(n % 10)]
  }

  function Zeros(n: nat): string {
    seq(n, i => '0')
  }

  // string.format('%0<width>d', n): at least `width` digits, never truncated.
  function Padded(width: nat, n: nat): string {
    var text := Decimal(n);
    if |text| >= width then text else Zeros(width - |text|) + text
  }

  // int(text) on plain digits; None stands for the ValueError.
  function ParseInt(text: string): Option<nat> {
    if text == [] || exists i | 0 <= i < |text| :: !IsDigit(text[i]) then None
    else Some(DigitsValue(text))
  }

  function DigitsValue(text: string): nat
    requires forall i | 0 <= i < |text| :: IsDigit(text[i])
  {
    if text == [] then 0
    else
      assert IsDigit(text[|text| - 1]);
      10 * DigitsValue(text[..|text| - 1]) + (text[|text| - 1] as int - '0' as int)
  }

  function Power10(w: nat): nat {
    if w == 0 then 1 else 10 * Power10(w - 1)
  }

  // The low w decimal digits of n.
  ghost function LowDigits(n: nat, w: nat): (text: string)
    ensures |text| == w
    ensures forall i | 0 <= i < w :: IsDigit(text[i])
  {
    if w == 0 then [] else LowDigits(n / 10, w - 1) + [Digit(n % 10)]
  }

  lemma {:induction false} LowDigitsOfZero(w: nat)
    ensures LowDigits(0, w) == Zeros(w)
  {
    if w > 0 {
      LowDigitsOfZero(w - 1);
      assert Zeros(w - 1) + ['0'] == Zeros(w);
    }
  }

  lemma {:induction false} PaddedIsLowDigits(width: nat, n: nat)
    requires width >= 1 && n < Power10(width)
    ensures Padded(width, n) == LowDigits(n, width)
  {
    if n < 10 {
      LowDigitsOfZero(width - 1);
    } else {
      PaddedIsLowDigits(width - 1, n / 10);
      var short := Decimal(n / 10);
      if |short| < width - 1 {
        assert Zeros(width - 1 - |short|) + short + [Digit(n % 10)]
            == Zeros(width - |Decimal(n)|) + Decimal(n);
      }
    }
  }

  lemma {:induction false} DigitsValueOfLowDigits(n: nat, w: nat)
    requires n < Power10(w)
    ensures DigitsValue(LowDigits(n, w)) == n
  {
    if w > 0 {
      DigitsValueOfLowDigits(n / 10, w - 1);
      var text := LowDigits(n, w);
      assert text[..w - 1] == LowDigits(n / 10, w - 1);
      assert text[w - 1] == Digit(n % 10);
    }
  }

  // Equal width makes byte order numeric order.
  lemma {:induction false} LowDigitsOrdered(m: nat, n: nat, w: nat)
    requires m < n < Power10(w)
    ensures LexLess(LowDigits(m, w), LowDigits(n, w))
  {
    var high, high' := LowDigits(m / 10, w - 1), LowDigits(n / 10, w - 1);
    if m / 10 < n / 10 {
      LowDigitsOrdered(m / 10, n / 10, w - 1);
    }
    LexAppend(high, high', [Digit(m % 10)], [Digit(n % 10)]);
  }

  lemma WidthCoversCounter()
    ensures Power10(SEQUENCE_WIDTH) == TEN_TO_WIDTH
  {
    assert Power10(5) == 100_000;
    assert Power10(10) == 10_000_000_000;
    assert Power10(15) == 1_000_000_000_000_000;
  }

  // ----- Lua numbers are doubles -----

  const EXACT_DOUBLES: nat := 0x20_0000_0000_0000

  function RoundHalfEven(n: nat, unit: nat): nat
    requires unit > 0
  {
    var q, r := n / unit, n % unit;
    if 2 * r < unit || (2 * r == unit && q % 2 == 0) then q * unit else (q + 1) * unit
  }

  // Spacing of the doubles just below n.
  function DoubleSpacing(n: nat): (unit: nat)
    ensures unit > 0
  {
    if n <= EXACT_DOUBLES then 1 else 2 * DoubleSpacing((n + 1) / 2)
  }

  // The double a Redis integer reply becomes inside a script.
  function LuaNumber(n: nat): nat {
    RoundHalfEven(n, DoubleSpacing(n))
  }

  /** Just above 2^53 every other integer is a double; the ones between go to the even neighbour. */
  lemma LuaNumberTies()
    ensures LuaNumber(9_007_199_254_740_993) == 9_007_199_254_740_992
    ensures LuaNumber(9_007_199_254_740_994) == 9_007_199_254_740_994
    ensures LuaNumber(9_007_199_254_740_995) == 9_007_199_254_740_996
  {
    assert DoubleSpacing(9_007_199_254_740_993) == 2 * DoubleSpacing(4_503_599_627_370_497);
    assert DoubleSpacing(9_007_199_254_740_994) == 2 * DoubleSpacing(4_503_599_627_370_497);
    assert DoubleSpacing(9_007_199_254_740_995) == 2 * DoubleSpacing(4_503_599_627_370_498);
  }

  lemma LuaNumberExact(n: nat)
    requires n <= EXACT_DOUBLES
    ensures LuaNumber(n) == n
  {
  }

  // ----- Members -----

  // string.format('%019d', sequence) .. ':' .. job_id
  function Member(sequence: nat, id: JobId): string {
    Padded(SEQUENCE_WIDTH, LuaNumber(sequence)) + ":" + id
  }

  datatype QueueCandidate = QueueCandidate(jobId: JobId, member: string, sequence: nat)

  datatype MemberError = NoSeparator | BadSequence | BadJobId

  datatype ParsedMember = Parsed(candidate: QueueCandidate) | Malformed(error: MemberError)

  function FindColon(text: string): (k: nat)
    ensures k <= |text|
    ensures k < |text| ==> text[k] == ':'
    ensures ':' !in text[..k]
  {
    if text == [] || text[0] == ':' then 0
    else
      var k := 1 + FindColon(text[1..]);
      assert text[..k] == [text[0]] + text[1..][..k - 1];
      k
  }

  // member.partition(":"), then uuid.UUID and int on the two sides.
  function FromMember(member: string): ParsedMember {
    var k := FindColon(member);
    if k == |member| then Malformed(NoSeparator)
    else if !IsUuid(member[k + 1..]) then Malformed(BadJobId)
    else
      match ParseInt(member[..k])
      case None => Malformed(BadSequence)
      case Some(n) => Parsed(QueueCandidate(member[k + 1..], member, n))
  }

  // The shape of a member while the counter stays in the padded range.
  lemma MemberText(sequence: nat, id: JobId)
    requires sequence <= EXACT_DOUBLES
    ensures Member(sequence, id) == LowDigits(sequence, SEQUENCE_WIDTH) + ":" + id
    ensures |Member(sequence, id)| == SEQUENCE_WIDTH + 37
    ensures DigitsValue(LowDigits(sequence, SEQUENCE_WIDTH)) == sequence
  {
    LuaNumberExact(sequence);
    WidthCoversCounter();
    PaddedIsLowDigits(SEQUENCE_WIDTH, sequence);
    DigitsValueOfLowDigits(sequence, SEQUENCE_WIDTH);
  }

  lemma {:induction false} FindColonUnique(text: string, k: nat)
    requires k < |text| && text[k] == ':' && ':' !in text[..k]
    ensures FindColon(text) == k
  {
    if k > 0 {
      assert text[0] in text[..k];
      assert text[1..][..k - 1] == text[..k][1..];
      FindColonUnique(text[1..], k - 1);
    }
  }

  predicate AllDigits(text: string) {
    text != [] && forall i | 0 <= i < |text| :: IsDigit(text[i])
  }

  /** What from_member makes of any text: split at the first colon, the job id looked at before the number. */
  lemma FromMemberCases(text: string, rest: string)
    requires ':' !in text
    ensures FromMember(text) == Malformed(NoSeparator)
    ensures FromMember(text + ":" + rest) ==
              if !IsUuid(rest) then Malformed(BadJobId)
              else if AllDigits(text) then Parsed(QueueCandidate(rest, text + ":" + rest, DigitsValue(text)))
              else Malformed(BadSequence)
  {
    var member := text + ":" + rest;
    assert member[..|text|] == text && member[|text| + 1..] == rest;
    FindColonUnique(member, |text|);
  }

  // Parsing a well-formed text with any 19-digit sequence returns its parts.
  lemma PaddedRoundTrip(n: nat, id: JobId)
    requires n < TEN_TO_WIDTH
    ensures FromMember(Padded(SEQUENCE_WIDTH, n) + ":" + id)
         == Parsed(QueueCandidate(id, Padded(SEQUENCE_WIDTH, n) + ":" + id, n))
  {
    WidthCoversCounter();
    PaddedIsLowDigits(SEQUENCE_WIDTH, n);
    DigitsValueOfLowDigits(n, SEQUENCE_WIDTH);
    var digits := LowDigits(n, SEQUENCE_WIDTH);
    var text := digits + ":" + id;
    assert text[..SEQUENCE_WIDTH] == digits;
    assert text[SEQUENCE_WIDTH + 1..] == id;
    FindColonUnique(text, SEQUENCE_WIDTH);
  }

  // from_member inverts what the enqueue script builds.
  lemma MemberRoundTrip(sequence: nat, id: JobId)
    requires LuaNumber(sequence) < TEN_TO_WIDTH
    ensures FromMember(Member(sequence, id))
         == Parsed(QueueCandidate(id, Member(sequence, id), LuaNumber(sequence)))
  {
    PaddedRoundTrip(LuaNumber(sequence), id);
  }

  lemma MemberInjective(m: nat, i: JobId, n: nat, j: JobId)
    requires m <= EXACT_DOUBLES && n <= EXACT_DOUBLES
    requires Member(m, i) == Member(n, j)
    ensures m == n && i == j
  {
    LuaNumberExact(m);
    LuaNumberExact(n);
    MemberRoundTrip(m, i);
    MemberRoundTrip(n, j);
  }

  lemma MemberOrdered(m: nat, i: JobId, n: nat, j: JobId)
    requires m < n <= EXACT_DOUBLES
    ensures LexLess(Member(m, i), Member(n, j))
  {
    MemberText(m, i);
    MemberText(n, j);
    LowDigitsLess(m, n);
    LexAppendMember(LowDigits(m, SEQUENCE_WIDTH), i, LowDigits(n, SEQUENCE_WIDTH), j);
  }

  lemma LowDigitsLess(m: nat, n: nat)
    requires m < n <= EXACT_DOUBLES
    ensures LexLess(LowDigits(m, SEQUENCE_WIDTH), LowDigits(n, SEQUENCE_WIDTH))
  {
    WidthCoversCounter();
    LowDigitsOrdered(m, n, SEQUENCE_WIDTH);
  }

  lemma LexAppendMember(a: string, i: JobId, b: string, j: JobId)
    requires |a| == |b| && LexLess(a, b)
    ensures LexLess(a + ":" + i, b + ":" + j)
  {
    assert a + ":" + i == a + (":" + i) && b + ":" + j == b + (":" + j);
    LexAppend(a, b, ":" + i, ":" + j);
  }

  /**
   Every re-enqueue of a job gets a token of its own, and byte order stays enqueue
   order, exactly as long as the counter has not passed the last exact double.
   */
  lemma TokensFreshIffExact(counter: nat, id: JobId)
    ensures (forall m, n | 1 <= m < n <= counter :: LexLess(Member(m, id), Member(n, id)))
       <==> counter <= 9_007_199_254_740_992
  {
    if counter <= EXACT_DOUBLES {
      forall m, n | 1 <= m < n <= counter ensures LexLess(Member(m, id), Member(n, id)) {
        MemberOrdered(m, id, n, id);
      }
    } else {
      var last, next := EXACT_DOUBLES, EXACT_DOUBLES + 1;
      LuaNumberExact(last);
      assert DoubleSpacing(next) == 2 * DoubleSpacing(EXACT_DOUBLES / 2 + 1);
      assert LuaNumber(next) == last;
      LexTrichotomy(Member(last, id), Member(next, id));
      assert 1 <= last < next <= counter && !LexLess(Member(last, id), Member(next, id));
    }
  }
}
