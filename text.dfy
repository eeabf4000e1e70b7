/**
 * The behaviour of the few Go library routines the core relies on, stated
 * on `string` (a sequence of Unicode scalar values): `strings.HasPrefix`,
 * `strings.TrimPrefix`, `strings.Replace(s, old, new, 1)`, `strconv.Atoi`,
 * `fmt.Sscanf(s, "%d", &v)`, `fmt.Sprintf("%v", …)` of an `int` or `bool`,
 * and the wrap-around of Go's 64-bit `int`.
 */
module Text {
  import opened Outcomes

  const MinInt64: int := -0x8000_0000_0000_0000
  const MaxInt64: int := 0x7fff_ffff_ffff_ffff

  predicate InInt64(x: int) { MinInt64 <= x <= MaxInt64 }

  /** Go's signed 64-bit `int` arithmetic: the result of an overflowing
      operation is the two's-complement residue of the exact one. */
  function Wrap64(x: int): (r: int)
    ensures InInt64(r)
    ensures InInt64(x) ==> r == x
    ensures (r - x) % 0x1_0000_0000_0000_0000 == 0
  {
    (x - MinInt64) % 0x1_0000_0000_0000_0000 + MinInt64
  }

  // ---------------------------------------------------------------- prefixes

  predicate HasPrefix(s: string, p: string) {
    |p| <= |s| && s[..|p|] == p
  }

  /** `strings.TrimPrefix`: drops `p` from the front of `s` when it is there. */
  function TrimPrefix(s: string, p: string): (r: string)
    ensures HasPrefix(s, p) ==> p + r == s
    ensures !HasPrefix(s, p) ==> r == s
  {
    if HasPrefix(s, p) then s[|p|..] else s
  }

  // ------------------------------------------------------------ substrings

  predicate OccursAt(s: string, pat: string, j: int) {
    0 <= j && j + |pat| <= |s| && s[j..j + |pat|] == pat
  }

  /** The index of the first occurrence of `pat` in `s`, or -1. */
  function IndexOf(s: string, pat: string): (r: int)
    ensures -1 <= r <= |s|
    ensures r >= 0 ==> OccursAt(s, pat, r)
    ensures forall j :: 0 <= j && (r < 0 || j < r) ==> !OccursAt(s, pat, j)
    decreases |s|
  {
    if |s| < |pat| then -1
    else if s[..|pat|] == pat then 0
    else
      var k := IndexOf(s[1..], pat);
      forall j | 1 <= j ensures OccursAt(s, pat, j) <==> OccursAt(s[1..], pat, j - 1) {
        OccursShift(s, pat, j);
      }
      if k < 0 then -1 else k + 1
  }

  /** An occurrence past the first character is an occurrence in the tail. */
  lemma OccursShift(s: string, pat: string, j: int)
    requires 1 <= j && |s| > 0
    ensures OccursAt(s, pat, j) <==> OccursAt(s[1..], pat, j - 1)
  {
    if j + |pat| <= |s| {
      assert s[1..][j - 1..j - 1 + |pat|] == s[j..j + |pat|];
    }
  }

  /** `strings.Replace(s, pat, repl, 1)`: the first occurrence of `pat`, if
      any, replaced by `repl`; an empty `pat` matches at the very beginning. */
  function ReplaceFirst(s: string, pat: string, repl: string): (r: string)
  {
    var i := IndexOf(s, pat);
    if i < 0 then s else s[..i] + repl + s[i + |pat|..]
  }

  // ---------------------------------------------------------------- decimal

  predicate IsDigit(c: char) { '0' <= c <= '9' }

  predicate AllDigits(s: string) { forall i :: 0 <= i < |s| ==> IsDigit(s[i]) }

  /** The number a string of decimal digits denotes. */
  function DigitsValue(ds: string): nat
    requires AllDigits(ds)
  {
    if |ds| == 0 then 0
    else DigitsValue(ds[..|ds| - 1]) * 10 + (ds[|ds| - 1] as int - '0' as int)
  }

  /** The shortest decimal spelling of a natural number. */
  function Digits(n: nat): (ds: string)
    ensures |ds| > 0 && AllDigits(ds)
  {
    var d := ['0' + (n % 10) as char];
    if n < 10 then d else Digits(n / 10) + d
  }

  /** `fmt.Sprintf("%v", n)` (and `strconv.Itoa`) for an `int`. */
  function FormatInt(n: int): string {
    if n < 0 then "-" + Digits(-n) else Digits(n)
  }

  /** `fmt.Sprintf("%v", b)` for a `bool`. */
  function FormatBool(b: bool): string {
    if b then "true" else "false"
  }

  /** Splits an optional leading `+` or `-` from `s`. */
  function SplitSign(s: string): (bool, string) {
    if |s| > 0 && (s[0] == '+' || s[0] == '-') then (s[0] == '-', s[1..]) else (false, s)
  }

  /** `strconv.Atoi`: an optional sign then one or more decimal digits and
      nothing else, denoting a value that fits Go's 64-bit `int`. */
  function Atoi(s: string): (r: Option<int>)
    ensures r.Some? ==> InInt64(r.value)
    ensures r.Some? ==> |s| > 0
  {
    var (neg, body) := SplitSign(s);
    if |body| == 0 || !AllDigits(body) then None
    else
      var v: int := if neg then -(DigitsValue(body) as int) else DigitsValue(body);
      if InInt64(v) then Some(v) else None
  }

  /** The characters `fmt`'s scanners skip before a number (a newline is not
      one of them: `Sscanf` reports it as an error). */
  predicate IsScanSpace(c: char) {
    c == ' ' || c == '\t' || c == '\r' || c == '\U{000B}' || c == '\U{000C}'
    || c == '\U{0085}' || c == '\U{00A0}' || c == '\U{1680}'
    || ('\U{2000}' <= c <= '\U{200A}') || c == '\U{2028}' || c == '\U{2029}'
    || c == '\U{202F}' || c == '\U{205F}' || c == '\U{3000}'
  }

  function SkipScanSpace(s: string): (r: string)
    ensures |r| <= |s| && r == s[|s| - |r|..]
    ensures |r| > 0 ==> !IsScanSpace(r[0])
  {
    if |s| > 0 && IsScanSpace(s[0]) then SkipScanSpace(s[1..]) else s
  }

  /** The longest run of decimal digits at the front of `s`. */
  function LeadingDigits(s: string): (ds: string)
    ensures AllDigits(ds) && |ds| <= |s| && ds == s[..|ds|]
    ensures |ds| < |s| ==> !IsDigit(s[|ds|])
  {
    if |s| > 0 && IsDigit(s[0]) then [s[0]] + LeadingDigits(s[1..]) else []
  }

  /** The value left in `v` by `fmt.Sscanf(s, "%d", &v)`: leading spaces are
      skipped, then an optional sign and the longest run of digits is read and
      whatever follows is ignored; when there is no digit or the number does
      not fit a 64-bit `int`, `Sscanf` fails and `v` keeps `current`. */
  function ScanInt(s: string, current: int): (r: int)
    ensures r == current || InInt64(r)
  {
    var (neg, rest) := SplitSign(SkipScanSpace(s));
    var ds := LeadingDigits(rest);
    if |ds| == 0 then current
    else
      var v: int := if neg then -(DigitsValue(ds) as int) else DigitsValue(ds);
      if InInt64(v) then v else current
  }

  /** Every record has as many fields as the first: what `encoding/csv`'s
      `ReadAll` demands with the reader's default `FieldsPerRecord`, failing
      on the first record that differs. */
  predicate Rectangular(records: seq<seq<string>>) {
    forall i :: 0 <= i < |records| ==> |records[i]| == |records[0]|
  }

  /** The records a successful `ReadAll` returns. */
  type CsvRecords = records: seq<seq<string>> | Rectangular(records)

  // ----------------------------------------------------------------- lemmas

  lemma {:induction false} DigitsValueOfDigits(n: nat)
    ensures DigitsValue(Digits(n)) == n
    decreases n
  {
    var d := ['0' + (n % 10) as char];
    if n >= 10 {
      DigitsValueOfDigits(n / 10);
      var ds := Digits(n / 10) + d;
      assert ds[..|ds| - 1] == Digits(n / 10);
    }
  }

  lemma {:induction false} DigitsAppend(ds: string, rest: string)
    requires AllDigits(ds) && (|rest| == 0 || !IsDigit(rest[0]))
    ensures LeadingDigits(ds + rest) == ds
    decreases |ds|
  {
    if |ds| > 0 {
      assert (ds + rest)[1..] == ds[1..] + rest;
      DigitsAppend(ds[1..], rest);
    } else {
      assert ds + rest == rest;
    }
  }

  /** `strconv.Atoi` reads back what `strconv.Itoa` wrote. */
  lemma AtoiFormatInt(n: int)
    requires InInt64(n)
    ensures Atoi(FormatInt(n)) == Some(n)
  {
    if n < 0 {
      DigitsValueOfDigits(-n);
      assert ("-" + Digits(-n))[1..] == Digits(-n);
    } else {
      DigitsValueOfDigits(n);
    }
  }

  /** `fmt.Sscanf("%d")` reads back what `fmt.Sprintf("%v")` wrote, and the
      text after the number does not matter. */
  lemma ScanIntFormatInt(n: int, tail: string, current: int)
    requires InInt64(n)
    requires |tail| == 0 || !IsDigit(tail[0])
    ensures ScanInt(FormatInt(n) + tail, current) == n
  {
    var m: nat := if n < 0 then -n else n;
    DigitsValueOfDigits(m);
    ScanDigits(n < 0, Digits(m), tail, current);
  }

  /** A signed run of digits followed by a non-digit scans to its value. */
  lemma ScanDigits(neg: bool, ds: string, tail: string, current: int)
    requires |ds| > 0 && AllDigits(ds)
    requires |tail| == 0 || !IsDigit(tail[0])
    requires InInt64(if neg then -(DigitsValue(ds) as int) else DigitsValue(ds))
    ensures ScanInt((if neg then "-" + ds else ds) + tail, current) ==
              if neg then -(DigitsValue(ds) as int) else DigitsValue(ds)
  {
    DigitsAppend(ds, tail);
    var s := (if neg then "-" + ds else ds) + tail;
    if neg {
      assert s == "-" + (ds + tail);
    } else {
      assert s == ds + tail;
    }
    ScanSigned(neg, ds + tail);
    ScanOfParts(s, neg, ds, tail, current);
  }

  lemma ScanOfParts(s: string, neg: bool, ds: string, tail: string, current: int)
    requires |ds| > 0 && AllDigits(ds)
    requires SplitSign(SkipScanSpace(s)) == (neg, ds + tail)
    requires LeadingDigits(ds + tail) == ds
    requires InInt64(if neg then -(DigitsValue(ds) as int) else DigitsValue(ds))
    ensures ScanInt(s, current) == if neg then -(DigitsValue(ds) as int) else DigitsValue(ds)
  {
  }

  /** A scan of an optionally signed run of digits: the spaces to skip are
      none, and the sign is split off. */
  lemma ScanSigned(neg: bool, body: string)
    requires |body| > 0 && IsDigit(body[0])
    ensures var s := if neg then "-" + body else body;
            SplitSign(SkipScanSpace(s)) == (neg, body)
  {
    var s := if neg then "-" + body else body;
    NoSpaceBeforeNumber(s[0]);
    assert SkipScanSpace(s) == s;
  }

  lemma NoSpaceBeforeNumber(c: char)
    requires c == '-' || IsDigit(c)
    ensures !IsScanSpace(c)
  {
  }

  /** `strings.Replace(h, "Bearer ", "", 1)` on a header that starts with the
      scheme yields the rest of the header. */
  lemma ReplaceFirstAtFront(pat: string, rest: string)
    requires |pat| > 0
    ensures ReplaceFirst(pat + rest, pat, "") == rest
  {
    var s := pat + rest;
    assert OccursAt(s, pat, 0);
    assert s[|pat|..] == rest;
  }

  /** Without an occurrence of `pat`, `Replace` changes nothing; otherwise the
      result is the text before the earliest occurrence, then `repl`, then the
      text after that occurrence. */
  lemma ReplaceFirstSpec(s: string, pat: string, repl: string)
    ensures (forall j :: 0 <= j ==> !OccursAt(s, pat, j)) ==> ReplaceFirst(s, pat, repl) == s
    ensures forall i :: OccursAt(s, pat, i) && (forall j :: 0 <= j < i ==> !OccursAt(s, pat, j))
              ==> ReplaceFirst(s, pat, repl) == s[..i] + repl + s[i + |pat|..]
  {
    var k := IndexOf(s, pat);
    forall i | OccursAt(s, pat, i) && (forall j :: 0 <= j < i ==> !OccursAt(s, pat, j))
      ensures k == i
    {
    }
  }
}
