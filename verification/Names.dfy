/** The names media files go by: what PrepareAttempt and CreateInput print, and what cleanup recognises. */
module Names {
  import opened Prelude

  const MAX_INT32: int := 0x7fff_ffff
  const MIN_INT32: int := -0x8000_0000

  const ATTEMPT_PREFIX := "attempt-"
  const INPUT_PREFIX := "song-"
  const INPUT_EXT := ".mp3"

  // ----- Decimal numbers -----

  predicate IsDigit(ch: char) {
    '0' <= ch <= '9'
  }

  function DigitChar(d: nat): char
    requires d < 10
  {
    ('0' as int + d) as char
  }

  function DigitValue(ch: char): nat
    requires IsDigit(ch)
  {
    ch as int - '0' as int
  }

  /** %d of a non-negative number. */
  function Decimal(n: nat): string {
    if n < 10 then [DigitChar(n)] else Decimal(n / 10) + [DigitChar(n % 10)]
  }

  /** The number a run of digits stands for. */
  function Value(digits: string): nat
    requires forall ch <- digits :: IsDigit(ch)
  {
    if digits == [] then 0
    else
      assert digits[|digits| - 1] in digits;
      Value(digits[..|digits| - 1]) * 10 + DigitValue(digits[|digits| - 1])
  }

  predicate AllDigits(s: string) {
    s != [] && forall ch <- s :: IsDigit(ch)
  }

  /** No digits but its own: no sign and no leading zero. */
  predicate IsPlain(s: string) {
    AllDigits(s) && (s[0] == '0' ==> |s| == 1)
  }

  lemma {:induction false} DecimalIsPlain(n: nat)
    ensures IsPlain(Decimal(n)) && Value(Decimal(n)) == n
    ensures 0 < n ==> Decimal(n)[0] != '0'
  {
    if n < 10 {
      assert Decimal(n)[..0] == [];
    } else {
      DecimalIsPlain(n / 10);
      var s := Decimal(n);
      assert s[..|s| - 1] == Decimal(n / 10);
    }
  }

  lemma LastDigit(q: nat, d: nat)
    requires d < 10
    ensures (q * 10 + d) / 10 == q && (q * 10 + d) % 10 == d
  {
  }

  /** Plain digits are determined by their value. */
  lemma {:induction false} PlainIsDecimal(s: string)
    requires IsPlain(s)
    ensures s == Decimal(Value(s))
    ensures |s| > 1 ==> 10 <= Value(s)
  {
    var prefix, last := s[..|s| - 1], s[|s| - 1];
    if |s| == 1 {
      assert Value(prefix) == 0 && last in s;
      assert s == [DigitChar(DigitValue(last))];
    } else {
      PlainIsDecimal(prefix);
      if |prefix| == 1 {
        assert Value(prefix[..0]) == 0 && prefix[0] in prefix;
      }
      assert Value(s) == Value(prefix) * 10 + DigitValue(last);
      LastDigit(Value(prefix), DigitValue(last));
      assert s == prefix + [DigitChar(DigitValue(last))];
    }
  }

  // ----- strconv.ParseInt(s, 10, 32) -----

  /** An optional sign and at least one digit; None for a syntax error and for a value outside 32 bits. */
  function ParseInt(s: string): Option<int> {
    if s == [] then None
    else
      var negative := s[0] == '-';
      var digits := if s[0] in {'+', '-'} then s[1..] else s;
      if !AllDigits(digits) then None
      else
        var magnitude: int := Value(digits);
        var value := if negative then -magnitude else magnitude;
        if MIN_INT32 <= value <= MAX_INT32 then Some(value) else None
  }

  // ----- Attempt directories -----

  predicate HasPrefix(s: string, prefix: string) {
    prefix <= s
  }

  /** fmt.Sprintf("attempt-%d", number) */
  function AttemptName(number: nat): string {
    ATTEMPT_PREFIX + Decimal(number)
  }

  /** The attempt a directory name stands for, if cleanup takes it for an attempt directory at all. */
  function ParseAttempt(name: string): Option<nat> {
    if !HasPrefix(name, ATTEMPT_PREFIX) then None
    else
      match ParseInt(name[|ATTEMPT_PREFIX|..])
      case Some(number) => if 0 <= number then Some(number) else None
      case None => None
  }

  /** Every int32 attempt number survives the trip through its directory's name, and no larger number is taken for
      one. */
  lemma AttemptNameRoundTrips(number: nat)
    ensures ParseAttempt(AttemptName(number)) == if number <= MAX_INT32 then Some(number) else None
  {
    DecimalIsPlain(number);
    assert AttemptName(number)[|ATTEMPT_PREFIX|..] == Decimal(number);
    assert Decimal(number)[0] in Decimal(number);
  }

  /** Of all names taken for attempt `number`, PrepareAttempt makes just the one without sign or leading zero. */
  lemma RecognisedNames(name: string, number: nat)
    requires ParseAttempt(name) == Some(number)
    ensures name == AttemptName(number) <==> IsPlain(name[|ATTEMPT_PREFIX|..])
  {
    var digits := name[|ATTEMPT_PREFIX|..];
    assert name == ATTEMPT_PREFIX + digits;
    DecimalIsPlain(number);
    if IsPlain(digits) {
      PlainIsDecimal(digits);
      assert digits[0] in digits;
    } else {
      assert AttemptName(number)[|ATTEMPT_PREFIX|..] == Decimal(number);
    }
  }

  /** Cleanup also takes a signed or padded name for an attempt, although no worker makes one; a minus sign is accepted
      before zero only. */
  lemma AliasesAreRecognised(number: nat)
    requires number <= MAX_INT32
    ensures ParseAttempt(ATTEMPT_PREFIX + "0" + Decimal(number)) == Some(number)
    ensures ParseAttempt(ATTEMPT_PREFIX + "+" + Decimal(number)) == Some(number)
    ensures ParseAttempt(ATTEMPT_PREFIX + "-" + Decimal(number)) == if number == 0 then Some(0) else None
  {
    AliasesParse(number);
    AfterPrefix("0", Decimal(number));
    AfterPrefix("+", Decimal(number));
    AfterPrefix("-", Decimal(number));
  }

  lemma AfterPrefix(sign: string, digits: string)
    ensures var number := ParseInt(sign + digits);
            ParseAttempt(ATTEMPT_PREFIX + sign + digits)
            == if number.Some? && 0 <= number.value then Some(number.value) else None
  {
    assert (ATTEMPT_PREFIX + sign + digits)[|ATTEMPT_PREFIX|..] == sign + digits;
  }

  lemma AliasesParse(number: nat)
    requires number <= MAX_INT32
    ensures ParseInt("0" + Decimal(number)) == ParseInt("+" + Decimal(number)) == Some(number)
    ensures ParseInt("-" + Decimal(number)) == Some(0 - number)
  {
    var digits := Decimal(number);
    DecimalIsPlain(number);
    LeadingZero(digits);
    assert ("+" + digits)[1..] == digits && ("-" + digits)[1..] == digits;
  }

  lemma {:induction false} LeadingZero(digits: string)
    requires forall ch <- digits :: IsDigit(ch)
    ensures (forall ch <- "0" + digits :: IsDigit(ch)) && Value("0" + digits) == Value(digits)
  {
    var s := "0" + digits;
    if digits == [] {
      assert s[..0] == [];
    } else {
      LeadingZero(digits[..|digits| - 1]);
      assert s[..|s| - 1] == "0" + digits[..|digits| - 1];
    }
  }

  /** filepath.Join(root, songID, name) */
  function AttemptPath(root: string, song: string, number: nat): string {
    root + "/" + song + "/" + AttemptName(number)
  }

  /** The first separator divides a path in one way only. */
  lemma {:induction false} OneWayToSplit(song1: string, rest1: string, song2: string, rest2: string)
    requires '/' !in song1 && '/' !in song2
    requires rest1 != [] && rest1[0] == '/' && rest2 != [] && rest2[0] == '/'
    requires song1 + rest1 == song2 + rest2
    ensures song1 == song2 && rest1 == rest2
  {
    assert (song1 + rest1)[0] == (song2 + rest2)[0];
    assert song1 != [] ==> song1[0] in song1;
    assert song2 != [] ==> song2[0] in song2;
    if song1 == [] {
      assert song1 + rest1 == rest1 && song2 + rest2 == rest2;
    } else {
      assert (song1 + rest1)[1..] == song1[1..] + rest1;
      assert (song2 + rest2)[1..] == song2[1..] + rest2;
      OneWayToSplit(song1[1..], rest1, song2[1..], rest2);
      assert song1 == [song1[0]] + song1[1..] && song2 == [song2[0]] + song2[1..];
    }
  }

  lemma AttemptNamesDiffer(n1: nat, n2: nat)
    requires AttemptName(n1) == AttemptName(n2)
    ensures n1 == n2
  {
    assert AttemptName(n1)[|ATTEMPT_PREFIX|..] == Decimal(n1) && AttemptName(n2)[|ATTEMPT_PREFIX|..] == Decimal(n2);
    DecimalIsPlain(n1);
    DecimalIsPlain(n2);
  }

  /** Distinct attempts have distinct directories. */
  lemma PathsAreDistinct(root: string, song1: string, n1: nat, song2: string, n2: nat)
    requires '/' !in song1 && '/' !in song2
    ensures AttemptPath(root, song1, n1) == AttemptPath(root, song2, n2) <==> song1 == song2 && n1 == n2
  {
    if AttemptPath(root, song1, n1) == AttemptPath(root, song2, n2) {
      var rest1, rest2 := "/" + AttemptName(n1), "/" + AttemptName(n2);
      assert AttemptPath(root, song1, n1) == (root + "/") + (song1 + rest1);
      assert AttemptPath(root, song2, n2) == (root + "/") + (song2 + rest2);
      var k := |root| + 1;
      assert AttemptPath(root, song1, n1)[k..] == song1 + rest1 && AttemptPath(root, song2, n2)[k..] == song2 + rest2;
      OneWayToSplit(song1, rest1, song2, rest2);
      assert rest1[1..] == AttemptName(n1) && rest2[1..] == AttemptName(n2);
      AttemptNamesDiffer(n1, n2);
    }
  }

  function Zeros(k: nat): string {
    if k == 0 then "" else "0" + Zeros(k - 1)
  }

  /** Zeros in front of a number's digits, and all the strings of digits with that value. */
  lemma {:induction false} PaddedDigits(digits: string) returns (k: nat)
    requires AllDigits(digits)
    ensures digits == Zeros(k) + Decimal(Value(digits))
  {
    if IsPlain(digits) {
      PlainIsDecimal(digits);
      k := 0;
    } else {
      var rest := digits[1..];
      assert digits == "0" + rest && forall ch <- rest :: ch in digits;
      LeadingZero(rest);
      var fewer := PaddedDigits(rest);
      k := fewer + 1;
    }
  }

  lemma {:induction false} PaddingKeepsValue(k: nat, digits: string)
    requires AllDigits(digits)
    ensures AllDigits(Zeros(k) + digits) && Value(Zeros(k) + digits) == Value(digits)
  {
    if k == 0 {
      assert Zeros(0) + digits == digits;
    } else {
      PaddingKeepsValue(k - 1, digits);
      LeadingZero(Zeros(k - 1) + digits);
      assert Zeros(k) + digits == "0" + (Zeros(k - 1) + digits);
    }
  }

  /** A sign ParseInt takes in front of a number that is not negative. */
  predicate IsSign(sign: string, number: nat) {
    sign == "" || sign == "+" || (sign == "-" && number == 0)
  }

  /** The prefix, a sign, any zeros, and the digits of a number of 32 bits. */
  ghost predicate Stands(name: string, number: nat) {
    number <= 0x7fff_ffff
    && exists sign: string, k: nat :: IsSign(sign, number) && name == "attempt-" + (sign + (Zeros(k) + Decimal(number)))
  }

  /** The names cleanup takes for attempt `number` are exactly those that stand for it. */
  lemma RecognisedExactly(name: string, number: nat)
    ensures ParseAttempt(name) == Some(number) <==> Stands(name, number)
  {
    if ParseAttempt(name) == Some(number) {
      var rest := name[|ATTEMPT_PREFIX|..];
      assert name == ATTEMPT_PREFIX + rest;
      var sign := if rest[0] in {'+', '-'} then rest[..1] else "";
      var digits := rest[|sign|..];
      assert rest == sign + digits;
      var k := PaddedDigits(digits);
      assert IsSign(sign, number) && name == "attempt-" + (sign + (Zeros(k) + Decimal(number)));
    }
    if number <= 0x7fff_ffff {
      forall sign: string, k: nat | IsSign(sign, number) && name == "attempt-" + (sign + (Zeros(k) + Decimal(number)))
        ensures ParseAttempt(name) == Some(number)
      {
        DecimalIsPlain(number);
        PaddingKeepsValue(k, Decimal(number));
        SignedParses(sign, Zeros(k) + Decimal(number), number);
      }
    }
  }

  lemma SignedParses(sign: string, digits: string, number: nat)
    requires number <= MAX_INT32 && IsSign(sign, number) && AllDigits(digits) && Value(digits) == number
    ensures ParseAttempt(ATTEMPT_PREFIX + (sign + digits)) == Some(number)
  {
    SignedInt(sign, digits, number);
    AfterPrefix(sign, digits);
    assert ATTEMPT_PREFIX + sign + digits == ATTEMPT_PREFIX + (sign + digits);
  }

  lemma SignedInt(sign: string, digits: string, number: nat)
    requires number <= MAX_INT32 && IsSign(sign, number) && AllDigits(digits) && Value(digits) == number
    ensures ParseInt(sign + digits) == Some(number)
  {
    assert digits[0] in digits;
    if sign == "" {
      assert sign + digits == digits;
    } else {
      assert (sign + digits)[1..] == digits && (sign + digits)[0] == sign[0];
    }
  }

  // ----- Staged inputs -----

  /** os.CreateTemp(dir, "song-*.mp3"): the star becomes a random number. */
  function InputFile(random: nat): string {
    INPUT_PREFIX + Decimal(random) + INPUT_EXT
  }

  /** filepath.Ext of a name without separators: from the last dot on. */
  function Ext(name: string): string {
    if name == [] then []
    else if name[|name| - 1] == '.' then "."
    else
      var rest := Ext(name[..|name| - 1]);
      if rest == [] then [] else rest + [name[|name| - 1]]
  }

  predicate IsInputFile(name: string) {
    HasPrefix(name, INPUT_PREFIX) && Ext(name) == INPUT_EXT
  }

  /** What Ext is at a name's last character. */
  lemma ExtStep(name: string, ch: char)
    ensures var rest := Ext(name);
      Ext(name + [ch]) == if ch == '.' then "." else if rest == [] then [] else rest + [ch]
  {
    assert (name + [ch])[..|name|] == name;
  }

  /** The names cleanup takes for staged inputs are exactly those that begin with song- and end with .mp3. */
  lemma InputFilesExactly(name: string)
    ensures IsInputFile(name) <==>
      5 <= |name| && name[..5] == "song-" && 4 <= |name| && name[|name| - 4..] == ".mp3"
  {
    var n := |name|;
    if n < 4 {
      ExtIsNoLonger(name);
    } else {
      var stem := name[..n - 4];
      assert name == stem + [name[n - 4]] + [name[n - 3]] + [name[n - 2]] + [name[n - 1]];
      ExtStep(stem, name[n - 4]);
      ExtStep(stem + [name[n - 4]], name[n - 3]);
      ExtStep(stem + [name[n - 4]] + [name[n - 3]], name[n - 2]);
      ExtStep(stem + [name[n - 4]] + [name[n - 3]] + [name[n - 2]], name[n - 1]);
      assert name[n - 4..] == [name[n - 4], name[n - 3], name[n - 2], name[n - 1]];
    }
  }

  lemma {:induction false} ExtIsNoLonger(name: string)
    ensures |Ext(name)| <= |name|
  {
    if name != [] {
      ExtIsNoLonger(name[..|name| - 1]);
    }
  }

  /** Cleanup recognises every staged input, and two inputs share a name only if CreateTemp drew the same number. */
  lemma InputFilesAreRecognised(a: nat, b: nat)
    ensures IsInputFile(InputFile(a))
    ensures InputFile(a) == InputFile(b) ==> a == b
  {
    var s, t := INPUT_PREFIX + Decimal(a), InputFile(a);
    assert t[..|s| + 3] == s + ".mp" && t[..|s| + 2] == s + ".m" && t[..|s| + 1] == s + ".";
    assert Ext(s + ".") == "." && Ext(s + ".m") == ".m" by {
      assert (s + ".m")[..|s| + 1] == s + ".";
    }
    assert Ext(s + ".mp") == ".mp" by {
      assert (s + ".mp")[..|s| + 2] == s + ".m";
    }
    if InputFile(a) == InputFile(b) {
      var k, n := |INPUT_PREFIX|, |t| - |INPUT_EXT|;
      assert t[k..n] == Decimal(a) && InputFile(b)[k..n] == Decimal(b);
      DecimalIsPlain(a);
      DecimalIsPlain(b);
    }
  }
}
