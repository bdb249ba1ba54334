/** The names of spooled reports: `<unix nanos>_<6 digits>_r<retries>.json`.

    The retry count of a report lives nowhere but in its file name, so the queue's accounting
    rests on this codec: reading back what was written (`ParseSet`), renaming without changing
    identity (`StemOfSet`), and the listing order (`NameOrder`). */
module SpoolNames {
  import opened Order

  // ---------------------------------------------------------------- decimal numbers

  function Digit(d: nat): char
    requires d < 10
  {
    ['0', '1', '2', '3', '4', '5', '6', '7', '8', '9'][d]
  }

  predicate IsDigit(c: char)
  {
    '0' <= c <= '9'
  }

  function DigitValue(c: char): (d: nat)
    requires IsDigit(c)
    ensures d < 10
  {
    c as int - '0' as int
  }

  predicate AllDigits(s: string)
  {
    forall i :: 0 <= i < |s| ==> IsDigit(s[i])
  }

  function Decimal(n: nat): (s: string)
    ensures s != "" && AllDigits(s)
  {
    if n < 10 then [Digit(n)] else Decimal(n / 10) + [Digit(n % 10)]
  }

  function DecimalValue(s: string): nat
    requires AllDigits(s)
  {
    if s == "" then 0 else 10 * DecimalValue(s[..|s| - 1]) + DigitValue(s[|s| - 1])
  }

  lemma {:induction false} DecimalRoundTrip(n: nat)
    ensures DecimalValue(Decimal(n)) == n
  {
    if n >= 10 {
      DecimalRoundTrip(n / 10);
      assert Decimal(n)[..|Decimal(n)| - 1] == Decimal(n / 10);
    } else {
      assert Decimal(n)[..0] == "";
    }
  }

  const MAX_INT64 := 0x7fff_ffff_ffff_ffff
  const MIN_INT64 := -0x8000_0000_0000_0000

  /** `strconv.Itoa` */
  function Itoa(n: int): string
  {
    if n < 0 then "-" + Decimal(-n) else Decimal(n)
  }

  datatype Parsed = Number(value: int) | SyntaxOrRangeError

  /** `strconv.Atoi`: an optional sign, at least one digit, and a value that fits 64 bits. */
  function Atoi(s: string): Parsed
  {
    var signed := s != "" && (s[0] == '-' || s[0] == '+');
    var digits := if signed then s[1..] else s;
    if digits == "" || !AllDigits(digits) then SyntaxOrRangeError
    else
      var magnitude: int := DecimalValue(digits);
      var value := if signed && s[0] == '-' then -magnitude else magnitude;
      if MIN_INT64 <= value <= MAX_INT64 then Number(value) else SyntaxOrRangeError
  }

  /** What is a number: digits, possibly after one sign, with a value that fits 64 bits. */
  lemma AtoiForms(ds: string, s: string)
    requires ds != "" && AllDigits(ds)
    ensures var v: int := DecimalValue(ds);
            && Atoi(ds) == Atoi("+" + ds) == (if v <= 0x7fff_ffff_ffff_ffff then Number(v) else SyntaxOrRangeError)
            && Atoi("-" + ds) == (if v <= 0x8000_0000_0000_0000 then Number(-v) else SyntaxOrRangeError)
    ensures Atoi(s).Number? ==>
      || (s != "" && AllDigits(s))
      || (|s| > 1 && (s[0] == '+' || s[0] == '-') && AllDigits(s[1..]))
  {
    assert ("+" + ds)[1..] == ds && ("-" + ds)[1..] == ds;
    assert IsDigit(ds[0]);
    hide DecimalValue, AllDigits;
  }

  lemma AtoiItoa(n: int)
    requires MIN_INT64 <= n <= MAX_INT64
    ensures Atoi(Itoa(n)) == Number(n)
  {
    if n < 0 {
      AtoiSigned(-n);
    } else {
      AtoiUnsigned(n);
    }
  }

  lemma AtoiSigned(n: int)
    requires 0 < n <= -MIN_INT64
    ensures Atoi("-" + Decimal(n)) == Number(-n)
  {
    DecimalRoundTrip(n);
    assert ("-" + Decimal(n))[1..] == Decimal(n);
  }

  lemma AtoiUnsigned(n: nat)
    requires n <= MAX_INT64
    ensures Atoi(Decimal(n)) == Number(n)
  {
    DecimalRoundTrip(n);
    assert IsDigit(Decimal(n)[0]);
  }

  // ---------------------------------------------------------------- the codec

  const SUFFIX := ".json"

  predicate MarkAt(name: string, i: nat)
  {
    i + 2 <= |name| && name[i] == '_' && name[i + 1] == 'r'
  }

  /** `strings.LastIndex(name, "_r")` restricted to `name[..end]`. */
  function LastMark(name: string, end: nat): (idx: int)
    requires end <= |name|
    ensures -1 <= idx <= end - 2 || idx == -1
    ensures idx >= 0 ==> MarkAt(name, idx)
    ensures forall i :: 0 <= i && i + 2 <= end && MarkAt(name, i) ==> i <= idx
  {
    if end < 2 then -1
    else if MarkAt(name, end - 2) then end - 2
    else LastMark(name, end - 1)
  }

  predicate Marked(name: string)
  {
    LastMark(name, |name|) >= 0
  }

  /** The part of a name that renaming keeps: everything up to and including the last `_r`.
      A name without the mark is never renamed, so all of it is stem. */
  function Stem(name: string): string
  {
    var idx := LastMark(name, |name|);
    if idx < 0 then name else name[..idx + 2]
  }

  function TrimSuffix(s: string): string
  {
    if |s| >= |SUFFIX| && s[|s| - |SUFFIX|..] == SUFFIX then s[..|s| - |SUFFIX|] else s
  }

  function ParseRetries(name: string): int
  {
    var idx := LastMark(name, |name|);
    if idx < 0 then 0
    else
      match Atoi(TrimSuffix(name[idx + 2..]))
      case Number(n) => n
      case SyntaxOrRangeError => 0
  }

  function SetRetries(name: string, retries: int): string
  {
    var idx := LastMark(name, |name|);
    if idx < 0 then name else name[..idx + 2] + Itoa(retries) + SUFFIX
  }

  /** Appending text without an underscore does not move the last mark. */
  lemma MarkSurvives(stem: string, tail: string)
    requires |stem| >= 2 && MarkAt(stem, |stem| - 2)
    requires '_' !in tail
    ensures LastMark(stem + tail, |stem + tail|) == |stem| - 2
  {
    assert MarkAt(stem + tail, |stem| - 2);
  }

  /** What a name says: the number between the last mark and the suffix, zero when there is no mark or
      what stands there is no number. */
  lemma CountRead(stem: string, part: string, name: string)
    requires |stem| >= 2 && MarkAt(stem, |stem| - 2) && '_' !in part
    ensures ParseRetries(stem + part + ".json") == match Atoi(part) case Number(n) => n case SyntaxOrRangeError => 0
    ensures (forall i :: 0 <= i < |name| - 1 ==> !(name[i] == '_' && name[i + 1] == 'r')) ==> ParseRetries(name) == 0
  {
    var tail := part + SUFFIX;
    MarkSurvives(stem, tail);
    assert stem + part + ".json" == stem + tail;
    assert (stem + tail)[|stem|..] == tail && tail[|part|..] == SUFFIX && tail[..|part|] == part;
    hide Atoi;
  }

  lemma ItoaHasNoUnderscore(n: int)
    ensures '_' !in Itoa(n) + SUFFIX
  {
    var s := Itoa(n);
    forall i | 0 <= i < |s| ensures s[i] != '_' {
      if n >= 0 {
        assert IsDigit(s[i]);
      } else if i > 0 {
        assert s[i] == Decimal(-n)[i - 1];
      }
    }
  }

  /** What a rename of the form used by the queue does to a marked name. */
  lemma SetShape(stem: string, k: int)
    requires |stem| >= 2 && MarkAt(stem, |stem| - 2)
    ensures var name := stem + Itoa(k) + SUFFIX;
            LastMark(name, |name|) == |stem| - 2 && Stem(name) == stem && Marked(name)
    ensures MIN_INT64 <= k <= MAX_INT64 ==> ParseRetries(stem + Itoa(k) + SUFFIX) == k
  {
    var tail := Itoa(k) + SUFFIX;
    var name := stem + Itoa(k) + SUFFIX;
    ItoaHasNoUnderscore(k);
    MarkSurvives(stem, tail);
    assert name == stem + tail;
    assert name[..|stem|] == stem;
    assert name[|stem|..] == tail;
    if MIN_INT64 <= k <= MAX_INT64 {
      AtoiItoa(k);
      assert tail[|tail| - |SUFFIX|..] == SUFFIX;
      assert TrimSuffix(tail) == Itoa(k);
    }
  }

  lemma StemShape(name: string)
    requires Marked(name)
    ensures |Stem(name)| >= 2 && MarkAt(Stem(name), |Stem(name)| - 2)
    ensures Stem(name) <= name
  {
  }

  /** The retry count read back is the one written, for every name that carries the mark and
      every count a Go `int` can hold. */
  lemma ParseSet(name: string, k: int)
    requires Marked(name) && MIN_INT64 <= k <= MAX_INT64
    ensures ParseRetries(SetRetries(name, k)) == k
  {
    StemShape(name);
    SetShape(Stem(name), k);
  }

  /** Renaming keeps the stem, marked or not. */
  lemma StemOfSet(name: string, k: int)
    ensures Stem(SetRetries(name, k)) == Stem(name)
    ensures Marked(SetRetries(name, k)) <==> Marked(name)
  {
    if Marked(name) {
      StemShape(name);
      SetShape(Stem(name), k);
    }
  }

  /** Of two renames only the last one shows. */
  lemma SetSet(name: string, j: int, k: int)
    ensures SetRetries(SetRetries(name, j), k) == SetRetries(name, k)
  {
    StemOfSet(name, j);
  }

  /** The count is read back for every `k` exactly when the name carries the mark. */
  lemma ParseSetIffMarked(name: string)
    ensures Marked(name) <==> forall k | MIN_INT64 <= k <= MAX_INT64 :: ParseRetries(SetRetries(name, k)) == k
  {
    if Marked(name) {
      forall k | MIN_INT64 <= k <= MAX_INT64 ensures ParseRetries(SetRetries(name, k)) == k {
        ParseSet(name, k);
      }
    } else {
      assert ParseRetries(SetRetries(name, 1)) == 0;
    }
  }

  // ---------------------------------------------------------------- names the queue writes

  function Pow10(n: nat): (p: nat)
    ensures p >= 1
  {
    if n == 0 then 1 else 10 * Pow10(n - 1)
  }

  /** The last `width` digits of `n`, with leading zeros. */
  function Pad(n: nat, width: nat): (s: string)
    ensures |s| == width && AllDigits(s)
  {
    if width == 0 then "" else Pad(n / 10, width - 1) + [Digit(n % 10)]
  }

  lemma PadSnoc(n: nat, width: nat, tenth: nat, last: nat)
    requires width > 0 && tenth == n / 10 && last == n % 10
    ensures Pad(n, width) == Pad(tenth, width - 1) + [Digit(last)]
  {
  }

  lemma DecimalSnoc(s: string, d: nat)
    requires AllDigits(s) && d < 10
    ensures AllDigits(s + [Digit(d)]) && DecimalValue(s + [Digit(d)]) == 10 * DecimalValue(s) + d
  {
    DigitRoundTrip(d);
    hide Digit, DigitValue, IsDigit;
    assert (s + [Digit(d)])[..|s|] == s;
  }

  lemma {:induction false} PadValue(n: nat, width: nat)
    requires n < Pow10(width)
    ensures DecimalValue(Pad(n, width)) == n
  {
    if width > 0 {
      var tenth, last := Tenth(n, Pow10(width - 1));
      PadSnoc(n, width, tenth, last);
      hide Pad, Pow10, Digit, DecimalValue, IsDigit;
      PadValue(tenth, width - 1);
      DecimalSnoc(Pad(tenth, width - 1), last);
    }
  }

  lemma Tenth(n: nat, p: nat) returns (tenth: nat, last: nat)
    requires n < 10 * p
    ensures tenth == n / 10 && last == n % 10
    ensures tenth < p && last < 10 && n == 10 * tenth + last
  {
    tenth, last := n / 10, n % 10;
  }

  lemma DigitRoundTrip(d: nat)
    requires d < 10
    ensures IsDigit(Digit(d)) && DigitValue(Digit(d)) == d
  {
  }

  /** `%06d`; the random part is below one million, so nothing is cut off. */
  function Pad6(n: nat): (s: string)
    ensures |s| == 6 && AllDigits(s)
  {
    Pad(n, 6)
  }

  function SpoolStem(nanos: nat, rnd: nat): string
    requires rnd < 1_000_000
  {
    Decimal(nanos) + "_" + Pad6(rnd) + "_r"
  }

  /** `fmt.Sprintf("%d_%06d_r0.json", ...)` */
  function SpoolName(nanos: nat, rnd: nat): string
    requires rnd < 1_000_000
  {
    SpoolStem(nanos, rnd) + "0.json"
  }

  lemma SpoolNameShape(nanos: nat, rnd: nat)
    requires rnd < 1_000_000
    ensures var name := SpoolName(nanos, rnd);
            Marked(name) && Stem(name) == SpoolStem(nanos, rnd) && ParseRetries(name) == 0
  {
    var stem := SpoolStem(nanos, rnd);
    assert Itoa(0) == "0";
    assert SpoolName(nanos, rnd) == stem + Itoa(0) + SUFFIX;
    assert MarkAt(stem, |stem| - 2);
    SetShape(stem, 0);
  }

  // ---------------------------------------------------------------- listing order

  /** On numerals of equal length the string order is the numeric order. */
  lemma {:induction false} DigitsOrder(a: string, b: string)
    requires |a| == |b| && AllDigits(a) && AllDigits(b)
    ensures StrLess(a, b) <==> DecimalValue(a) < DecimalValue(b)
    ensures a == b <==> DecimalValue(a) == DecimalValue(b)
  {
    if a != "" {
      var a0, b0 := a[..|a| - 1], b[..|b| - 1];
      DigitsOrder(a0, b0);
      LessSnoc(a0, a[|a| - 1], b0, b[|b| - 1]);
      assert a == a0 + [a[|a| - 1]] && b == b0 + [b[|b| - 1]];
    }
  }

  lemma {:induction false} LessSnoc(a: string, c: char, b: string, d: char)
    requires |a| == |b|
    ensures StrLess(a + [c], b + [d]) <==> StrLess(a, b) || (a == b && c < d)
  {
    if a != "" {
      assert (a + [c])[1..] == a[1..] + [c] && (b + [d])[1..] == b[1..] + [d];
      LessSnoc(a[1..], c, b[1..], d);
      if a[0] == b[0] && a[1..] == b[1..] {
        assert a == [a[0]] + a[1..] == b;
      }
    }
  }

  /** What follows a difference does not matter. */
  lemma {:induction false} LessByPrefix(a: string, b: string, x: string, y: string)
    requires |a| == |b|
    ensures StrLess(a + x, b + y) <==> StrLess(a, b) || (a == b && StrLess(x, y))
  {
    if a == "" {
      assert a + x == x && b + y == y;
    } else {
      assert (a + x)[1..] == a[1..] + x && (b + y)[1..] == b[1..] + y;
      LessByPrefix(a[1..], b[1..], x, y);
      if a[0] == b[0] && a[1..] == b[1..] {
        assert a == [a[0]] + a[1..] == b;
      }
    }
  }

  lemma PadOrder(m: nat, n: nat)
    requires m < 1_000_000 && n < 1_000_000
    ensures StrLess(Pad6(m), Pad6(n)) <==> m < n
    ensures Pad6(m) == Pad6(n) <==> m == n
  {
    assert Pow10(2) == 100 && Pow10(4) == 10_000 && Pow10(6) == 1_000_000;
    PadValue(m, 6);
    PadValue(n, 6);
    DigitsOrder(Pad6(m), Pad6(n));
  }

  lemma StemOrder(d1: string, p1: string, x: string, d2: string, p2: string, y: string)
    requires |d1| == |d2| && |p1| == |p2|
    requires d1 != d2 || p1 != p2
    ensures StrLess(d1 + "_" + p1 + "_r" + x, d2 + "_" + p2 + "_r" + y)
            <==> StrLess(d1, d2) || (d1 == d2 && StrLess(p1, p2))
  {
    var a, b := "_" + p1, "_" + p2;
    assert d1 + "_" + p1 + "_r" + x == d1 + (a + ("_r" + x));
    assert d2 + "_" + p2 + "_r" + y == d2 + (b + ("_r" + y));
    LessByPrefix(d1, d2, a + ("_r" + x), b + ("_r" + y));
    LessByPrefix(a, b, "_r" + x, "_r" + y);
    assert a[1..] == p1 && b[1..] == p2;
  }

  /** Older first, whatever the retry counts: two spooled reports with different stems whose
      time stamps have equally many digits are listed by (time, random part), and bumping
      either count never swaps them. */
  lemma NameOrder(t1: nat, r1: nat, k1: int, t2: nat, r2: nat, k2: int)
    requires r1 < 1_000_000 && r2 < 1_000_000
    requires |Decimal(t1)| == |Decimal(t2)|
    requires (t1, r1) != (t2, r2)
    ensures StrLess(SetRetries(SpoolName(t1, r1), k1), SetRetries(SpoolName(t2, r2), k2))
            <==> t1 < t2 || (t1 == t2 && r1 < r2)
  {
    var x, y := Itoa(k1) + SUFFIX, Itoa(k2) + SUFFIX;
    SetSpoolName(t1, r1, k1);
    SetSpoolName(t2, r2, k2);
    DecimalRoundTrip(t1);
    DecimalRoundTrip(t2);
    DigitsOrder(Decimal(t1), Decimal(t2));
    PadOrder(r1, r2);
    StemOrder(Decimal(t1), Pad6(r1), x, Decimal(t2), Pad6(r2), y);
  }

  lemma SetSpoolName(nanos: nat, rnd: nat, k: int)
    requires rnd < 1_000_000
    ensures SetRetries(SpoolName(nanos, rnd), k) == Decimal(nanos) + "_" + Pad6(rnd) + "_r" + (Itoa(k) + SUFFIX)
  {
    hide Decimal, Pad6, Itoa, LastMark;
    SpoolNameShape(nanos, rnd);
    var name := SpoolName(nanos, rnd);
    assert SetRetries(name, k) == Stem(name) + Itoa(k) + SUFFIX;
    assert SpoolStem(nanos, rnd) + Itoa(k) + SUFFIX == SpoolStem(nanos, rnd) + (Itoa(k) + SUFFIX);
  }

  /** Different (time, random part) pairs give different stems, for time stamps of any length. */
  lemma SpoolStemInjective(t1: nat, r1: nat, t2: nat, r2: nat)
    requires r1 < 1_000_000 && r2 < 1_000_000
    requires SpoolStem(t1, r1) == SpoolStem(t2, r2)
    ensures t1 == t2 && r1 == r2
  {
    var s := SpoolStem(t1, r1);
    assert s == Decimal(t2) + "_" + Pad6(r2) + "_r";
    assert |Decimal(t1)| == |s| - 9 == |Decimal(t2)|;
    assert Decimal(t1) == s[..|s| - 9] == Decimal(t2);
    assert Pad6(r1) == s[|s| - 8..|s| - 2] == Pad6(r2);
    DecimalRoundTrip(t1);
    DecimalRoundTrip(t2);
    PadOrder(r1, r2);
  }
}
