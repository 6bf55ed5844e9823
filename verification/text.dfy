/** Text primitives shared by the printers and parsers: splitting and joining on a
    separator, decimal numbers as printed by `strconv.Itoa` and read by `strconv.Atoi`,
    and the `Option` type that stands for Go's nil-able pointers. */
module Text {

  datatype Option<+T> = None | Some(value: T)

  /** A Go `uint` on the 64-bit platforms the library is built for. */
  type uint = x: nat | x < 0x1_0000_0000_0000_0000

  /** The largest value of a Go `int`, plus one. */
  const INT_LIMIT: int := 0x8000_0000_0000_0000

  /** The value keeps its meaning when converted from `uint` to `int`. */
  predicate FitsInt(n: nat) { n < INT_LIMIT }

  // ---------------------------------------------------------------- splitting

  function Split(s: string, sep: char): (parts: seq<string>)
    ensures |parts| >= 1
    ensures forall p | p in parts :: sep !in p
  {
    if s == "" then [""]
    else
      var rest := Split(s[1..], sep);
      if s[0] == sep then [""] + rest
      else
        assert forall p | p in rest[1..] :: p in rest;
        [[s[0]] + rest[0]] + rest[1..]
  }

  function Join(parts: seq<string>, sep: char): string {
    if |parts| == 0 then ""
    else if |parts| == 1 then parts[0]
    else parts[0] + [sep] + Join(parts[1..], sep)
  }

  lemma {:induction false} SplitPlain(s: string, sep: char)
    requires sep !in s
    ensures Split(s, sep) == [s]
  {
    if s != "" {
      SplitPlain(s[1..], sep);
      assert [s[0]] + s[1..] == s;
    }
  }

  lemma {:induction false} SplitFirst(s: string, t: string, sep: char)
    requires sep !in s
    ensures Split(s + [sep] + t, sep) == [s] + Split(t, sep)
  {
    var whole := s + [sep] + t;
    if s == "" {
      assert whole[1..] == t;
    } else {
      assert whole[1..] == s[1..] + [sep] + t;
      SplitFirst(s[1..], t, sep);
      assert [s[0]] + s[1..] == s;
    }
  }

  /** Splitting undoes joining for every non-empty list of separator-free parts. */
  lemma {:induction false} SplitJoin(parts: seq<string>, sep: char)
    requires |parts| >= 1 && forall p | p in parts :: sep !in p
    ensures Split(Join(parts, sep), sep) == parts
  {
    if |parts| == 1 {
      SplitPlain(parts[0], sep);
    } else {
      SplitFirst(parts[0], Join(parts[1..], sep), sep);
      SplitJoin(parts[1..], sep);
      assert parts == [parts[0]] + parts[1..];
    }
  }

  /** Joining undoes splitting for every text. */
  lemma {:induction false} JoinSplit(s: string, sep: char)
    ensures Join(Split(s, sep), sep) == s
  {
    if s != "" {
      JoinSplit(s[1..], sep);
      var rest := Split(s[1..], sep);
      var parts := Split(s, sep);
      if s[0] == sep {
        assert parts[1..] == rest;
      } else if |rest| > 1 {
        assert parts[1..] == rest[1..];
      }
    }
  }

  lemma {:induction false} JoinAppend(a: seq<string>, b: seq<string>, sep: char)
    requires |a| >= 1 && |b| >= 1
    ensures Join(a + b, sep) == Join(a, sep) + [sep] + Join(b, sep)
  {
    assert (a + b)[1..] == a[1..] + b;
    if |a| > 1 {
      JoinAppend(a[1..], b, sep);
    }
  }

  lemma JoinCons(first: string, rest: seq<string>, sep: char)
    requires rest != []
    ensures Join([first] + rest, sep) == first + [sep] + Join(rest, sep)
  {
    assert ([first] + rest)[1..] == rest;
  }

  /** The part before the first separator and the part after it, as `strings.SplitN(s, sep, 2)`. */
  function CutAt(s: string, sep: char): (r: (string, Option<string>))
    ensures sep !in r.0
    ensures r.1.None? ==> r.0 == s && sep !in s
    ensures r.1.Some? ==> s == r.0 + [sep] + r.1.value
  {
    if s == "" then ("", None)
    else if s[0] == sep then ("", Some(s[1..]))
    else
      var (head, tail) := CutAt(s[1..], sep);
      ([s[0]] + head, tail)
  }

  lemma {:induction false} CutAtFirst(a: string, b: string, sep: char)
    requires sep !in a
    ensures CutAt(a + [sep] + b, sep) == (a, Some(b))
  {
    var s := a + [sep] + b;
    if a == "" {
      assert s[1..] == b;
    } else {
      assert s[1..] == a[1..] + [sep] + b;
      CutAtFirst(a[1..], b, sep);
      assert [s[0]] + a[1..] == a;
    }
  }

  lemma CutAtPlain(s: string, sep: char)
    requires sep !in s
    ensures CutAt(s, sep) == (s, None)
  {
    assert CutAt(s, sep).1.Some? ==> sep in s;
  }

  /** Text without the separator stays in front of the cut. */
  lemma {:induction false} CutAtSkips(a: string, b: string, sep: char)
    requires sep !in a
    ensures CutAt(a + b, sep).0 == a + CutAt(b, sep).0
  {
    if a == "" {
      assert a + b == b;
    } else {
      assert (a + b)[1..] == a[1..] + b;
      CutAtSkips(a[1..], b, sep);
    }
  }

  /** The first separator is the one both decompositions share. */
  lemma CutUnique(a: string, b: string, c: string, d: string, sep: char)
    requires sep !in a && sep !in c
    requires a + [sep] + b == c + [sep] + d
    ensures a == c && b == d
  {
    CutAtFirst(a, b, sep);
    CutAtFirst(c, d, sep);
  }

  // ---------------------------------------------------------------- decimals

  predicate IsDigit(c: char) { '0' <= c <= '9' }

  predicate AllDigits(s: string) { forall c | c in s :: IsDigit(c) }

  function Digit(d: nat): (c: char)
    requires d < 10
    ensures IsDigit(c)
  {
    '0' + d as char
  }

  function DigitValue(c: char): nat
    requires IsDigit(c)
  {
    (c - '0') as nat
  }

  /** Base ten, most significant digit first, without leading zeros. */
  function Decimal(n: nat): (s: string)
    ensures |s| >= 1 && AllDigits(s)
  {
    if n < 10 then [Digit(n)] else Decimal(n / 10) + [Digit(n % 10)]
  }

  function DigitsValue(s: string): nat
    requires AllDigits(s)
  {
    if s == "" then 0 else 10 * DigitsValue(s[..|s| - 1]) + DigitValue(s[|s| - 1])
  }

  lemma {:induction false} DecimalValue(n: nat)
    ensures DigitsValue(Decimal(n)) == n
  {
    var s := Decimal(n);
    if n < 10 {
      assert s[..|s| - 1] == "";
    } else {
      DecimalValue(n / 10);
      assert s[..|s| - 1] == Decimal(n / 10);
    }
  }

  /** `strconv.Itoa`. */
  function Itoa(i: int): string {
    if i < 0 then "-" + Decimal(-i) else Decimal(i)
  }

  /** The two results of `strconv.Atoi`: the number, and whether the error is nil. */
  datatype AtoiResult = AtoiResult(value: int, ok: bool)

  /** `strconv.Atoi`: an optional sign and at least one digit. A malformed text gives zero,
      a number outside the range of a Go `int` gives the nearest bound; both are errors. */
  function Atoi(s: string): AtoiResult {
    var negative := |s| > 0 && s[0] == '-';
    var digits := if |s| > 0 && (s[0] == '-' || s[0] == '+') then s[1..] else s;
    if digits == "" || !AllDigits(digits) then AtoiResult(0, false)
    else
      var n: int := DigitsValue(digits);
      if negative then
        if n > INT_LIMIT then AtoiResult(-INT_LIMIT, false) else AtoiResult(-n, true)
      else
        if n >= INT_LIMIT then AtoiResult(INT_LIMIT - 1, false) else AtoiResult(n, true)
  }

  lemma AtoiItoa(i: int)
    requires -INT_LIMIT <= i < INT_LIMIT
    ensures Atoi(Itoa(i)) == AtoiResult(i, true)
  {
    var s := Itoa(i);
    if i < 0 {
      DecimalValue(-i);
      assert s[1..] == Decimal(-i);
    } else {
      DecimalValue(i);
      assert s[0] in s && IsDigit(s[0]);
    }
  }

  lemma DecimalInjective(m: nat, n: nat)
    requires Decimal(m) == Decimal(n)
    ensures m == n
  {
    DecimalValue(m);
    DecimalValue(n);
  }

  /** A printed number contains none of the separators of the formats below. */
  lemma DecimalHasOnlyDigits(n: nat, c: char)
    requires !IsDigit(c)
    ensures c !in Decimal(n)
  {
  }

  /** Conversion `int(x)` of a 64-bit unsigned value: two's complement wrap-around. */
  function ToInt(x: uint): (i: int)
    ensures -INT_LIMIT <= i < INT_LIMIT
    ensures FitsInt(x) ==> i == x
  {
    if x < INT_LIMIT then x else x - 2 * INT_LIMIT
  }

  /** Conversion `uint(i)`: the value modulo 2^64. */
  function ToUint(i: int): (x: uint)
    ensures 0 <= i < 2 * INT_LIMIT ==> x == i
    ensures -2 * INT_LIMIT <= i < 0 ==> x == i + 2 * INT_LIMIT
  {
    if 0 <= i < 2 * INT_LIMIT then i
    else if -2 * INT_LIMIT <= i < 0 then i + 2 * INT_LIMIT
    else i % 0x1_0000_0000_0000_0000
  }

  /** `strconv.Itoa(int(x))`. */
  function UintText(x: uint): string { Itoa(ToInt(x)) }

  /** `uint(tmp)` where `tmp, _ := strconv.Atoi(s)`. */
  function Atou(s: string): uint { ToUint(Atoi(s).value) }

  /** Printing an unsigned value through `int` and reading it back through `int` loses
      nothing, even where the printed text is negative. */
  lemma UintTextRoundTrip(x: uint)
    ensures Atou(UintText(x)) == x
  {
    AtoiItoa(ToInt(x));
  }

  /** `strconv.ParseBool` with its error discarded: anything unrecognised reads as false. */
  predicate ParseBool(s: string) {
    s == "1" || s == "t" || s == "T" || s == "TRUE" || s == "true" || s == "True"
  }
}
