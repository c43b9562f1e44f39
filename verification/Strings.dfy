/** The parts of Go's `strings` and `strconv` packages the driver relies on. */
module Strings {

  datatype Option<+T> = None | Some(value: T)

  /** a, a separator, b. */
  function Glue(a: string, c: char, b: string): string { a + [c] + b }

  /** strings.Cut(s, sep): the text before and after the first separator. */
  function Cut(s: string, c: char): (r: Option<(string, string)>)
    ensures r.Some? <==> c in s
    ensures r.Some? ==> Glue(r.value.0, c, r.value.1) == s && c !in r.value.0 && |r.value.1| < |s|
  {
    if s == [] then None
    else if s[0] == c then assert s == Glue("", c, s[1..]); Some(("", s[1..]))
    else
      assert s == [s[0]] + s[1..];
      match Cut(s[1..], c)
      case None => None
      case Some((a, b)) => assert s == Glue([s[0]] + a, c, b); Some(([s[0]] + a, b))
  }

  lemma {:induction false} CutGlue(a: string, c: char, b: string)
    requires c !in a
    ensures Cut(Glue(a, c, b), c) == Some((a, b))
  {
    var s := Glue(a, c, b);
    if a == "" {
      assert s[1..] == b;
    } else {
      assert s[0] == a[0] && s[1..] == Glue(a[1..], c, b) && [a[0]] + a[1..] == a;
      CutGlue(a[1..], c, b);
    }
  }

  /** strings.SplitN(s, sep, n) for a one-byte separator and n >= 1. */
  function SplitN(s: string, c: char, n: nat): (parts: seq<string>)
    requires n >= 1
    ensures 1 <= |parts| <= n
    decreases n
  {
    if n == 1 then [s]
    else
      match Cut(s, c)
      case None => [s]
      case Some((a, b)) => [a] + SplitN(b, c, n - 1)
  }

  /** strings.Split(s, sep) for a one-byte separator. */
  function Split(s: string, c: char): (parts: seq<string>)
    ensures |parts| >= 1
    decreases |s|
  {
    match Cut(s, c)
    case None => [s]
    case Some((a, b)) => [a] + Split(b, c)
  }

  /** strings.Join(parts, sep). */
  function Join(parts: seq<string>, c: char): string {
    if parts == [] then ""
    else if |parts| == 1 then parts[0]
    else Glue(parts[0], c, Join(parts[1..], c))
  }

  lemma {:induction false} JoinSplit(s: string, c: char)
    ensures Join(Split(s, c), c) == s
    ensures forall p :: p in Split(s, c) ==> c !in p
    decreases |s|
  {
    match Cut(s, c)
    case None =>
    case Some((a, b)) =>
      JoinSplit(b, c);
      assert Split(s, c)[1..] == Split(b, c);
  }

  /** Splitting undoes joining exactly when there is something to join and no
      part carries the separator. */
  lemma SplitJoin(parts: seq<string>, c: char)
    ensures Split(Join(parts, c), c) == parts <==> parts != [] && forall p :: p in parts ==> c !in p
  {
    if parts != [] && forall p :: p in parts ==> c !in p {
      SplitOfJoin(parts, c);
    } else {
      JoinSplit(Join(parts, c), c);
    }
  }

  lemma {:induction false} SplitOfJoin(parts: seq<string>, c: char)
    requires parts != []
    requires forall p :: p in parts ==> c !in p
    ensures Split(Join(parts, c), c) == parts
    decreases |parts|
  {
    assert parts[0] in parts;
    if |parts| == 1 {
      assert parts == [parts[0]];
    } else {
      CutGlue(parts[0], c, Join(parts[1..], c));
      SplitOfJoin(parts[1..], c);
    }
  }

  lemma GlueAppend(a: string, c: char, b: string, t: string)
    ensures Glue(a, c, b + t) == Glue(a, c, b) + t
    ensures t + Glue(a, c, b) == Glue(t + a, c, b)
  {}

  /** strings.CutPrefix. */
  function After(s: string, p: string): (r: Option<string>)
    ensures r.Some? ==> s == p + r.value
  {
    if HasPrefix(s, p) then Some(s[|p|..]) else None
  }

  lemma AfterPrefix(p: string, rest: string)
    ensures After(p + rest, p) == Some(rest)
  {
    assert (p + rest)[..|p|] == p;
    assert (p + rest)[|p|..] == rest;
  }

  predicate HasPrefix(s: string, p: string) {
    |p| <= |s| && s[..|p|] == p
  }

  predicate HasSuffix(s: string, p: string) {
    |p| <= |s| && s[|s| - |p|..] == p
  }

  predicate PresentAt(s: string, i: nat, p: string) {
    i + |p| <= |s| && s[i..i + |p|] == p
  }

  /** strings.Contains(s, p). */
  predicate Contains(s: string, p: string) {
    exists i :: 0 <= i <= |s| && PresentAt(s, i, p)
  }

  /** Byte-wise string order, the order of slices.Sorted and of `<` on strings. */
  predicate Less(a: string, b: string) {
    b != [] && (a == [] || a[0] < b[0] || (a[0] == b[0] && Less(a[1..], b[1..])))
  }

  lemma {:induction false} LessTotal(a: string, b: string)
    ensures Less(a, b) || a == b || Less(b, a)
    ensures !(Less(a, b) && (a == b || Less(b, a)))
  {
    if a != [] && b != [] && a[0] == b[0] {
      LessTotal(a[1..], b[1..]);
      assert a == [a[0]] + a[1..] && b == [b[0]] + b[1..];
    }
  }

  lemma {:induction false} LessTransitive(a: string, b: string, c: string)
    requires Less(a, b) && Less(b, c)
    ensures Less(a, c)
  {
    if a != [] && a[0] == b[0] == c[0] {
      LessTransitive(a[1..], b[1..], c[1..]);
    }
  }
}

/** Decimal text: fmt.Sprintf("%d", n), strconv.Itoa and strconv.ParseInt. */
module Decimal {
  import opened Strings

  const MAX_INT64: int := 0x7fff_ffff_ffff_ffff
  const MIN_INT64: int := -0x8000_0000_0000_0000

  predicate IsDigit(c: char) { '0' <= c <= '9' }

  function Digit(d: nat): (c: char)
    requires d < 10
    ensures IsDigit(c)
  {
    '0' + d as char
  }

  function DigitValue(c: char): (d: nat)
    requires IsDigit(c)
    ensures d < 10 && Digit(d) == c
  {
    c as int - '0' as int
  }

  predicate AllDigits(s: string) {
    forall i :: 0 <= i < |s| ==> IsDigit(s[i])
  }

  function PrintNat(n: nat): (s: string)
    ensures s != [] && AllDigits(s)
    ensures s[0] == '0' <==> n == 0
  {
    if n < 10 then [Digit(n)] else PrintNat(n / 10) + [Digit(n % 10)]
  }

  /** fmt.Sprintf("%d", n). */
  function Print(n: int): string {
    if n < 0 then "-" + PrintNat(-n) else PrintNat(n)
  }

  function ParseNat(s: string): nat
    requires AllDigits(s)
  {
    if s == [] then 0
    else 10 * ParseNat(s[..|s| - 1]) + DigitValue(s[|s| - 1])
  }

  lemma {:induction false} ParsePrintNat(n: nat)
    ensures ParseNat(PrintNat(n)) == n
  {
    if n >= 10 {
      ParsePrintNat(n / 10);
      var s := PrintNat(n);
      assert s[..|s| - 1] == PrintNat(n / 10);
    }
  }

  /** strconv.ParseInt(s, 10, 64): an optional sign and at least one digit, in range. */
  function ParseInt(s: string): Option<int> {
    var neg := HasPrefix(s, "-");
    var body := if neg || HasPrefix(s, "+") then s[1..] else s;
    if body == [] || !AllDigits(body) then None
    else
      var magnitude: int := ParseNat(body);
      var v := if neg then -magnitude else magnitude;
      if MIN_INT64 <= v <= MAX_INT64 then Some(v) else None
  }

  /** A printed number reads back exactly when it fits the type. */
  lemma ParsePrint(n: int)
    ensures ParseInt(Print(n)) == if MIN_INT64 <= n <= MAX_INT64 then Some(n) else None
  {
    var s := Print(n);
    if n < 0 {
      ParsePrintNat(-n);
      assert s[..1] == "-" && s[1..] == PrintNat(-n);
    } else {
      ParsePrintNat(n);
      assert IsDigit(s[0]);
      assert s[..1] == [s[0]];
    }
  }

  /** How many digits a printed number has. */
  lemma {:induction false} PrintNatLength(n: nat, k: nat, pow: nat)
    requires k >= 1 && pow == Pow10(k)
    ensures |PrintNat(n)| <= k <==> n < pow
    decreases k
  {
    if k == 1 {
    } else {
      PrintNatLength(n / 10, k - 1, pow / 10);
    }
  }

  function Pow10(k: nat): (p: nat)
    ensures p >= 1
  {
    if k == 0 then 1 else 10 * Pow10(k - 1)
  }
}
