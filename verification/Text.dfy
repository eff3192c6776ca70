/** The pieces of Go's strings and strconv packages that the repository leans on.
    A string is a sequence of bytes, written as characters below 256. */
module Text {

  datatype Option<+T> = None | Some(value: T)

  lemma LastApart<T>(a: seq<T>, b: seq<T>)
    requires b != []
    ensures a + b == (a + b[..|b| - 1]) + [b[|b| - 1]]
    ensures (a + b)[..|a + b| - 1] == a + b[..|b| - 1]
  {}

  function LastFew<T>(s: seq<T>, count: nat): seq<T> {
    if |s| > count then s[|s| - count..] else s
  }

  lemma LastFewOfLastFew<T>(a: seq<T>, b: seq<T>, count: nat)
    ensures LastFew(LastFew(a, count) + b, count) == LastFew(a + b, count)
  {}

  predicate IsSpace(c: char) {
    c == ' ' || c == '\t' || c == '\n' || c == '\r' || c as int == 11 || c as int == 12
  }

  predicate HasSuffix(s: string, suffix: string) {
    |suffix| <= |s| && s[|s| - |suffix|..] == suffix
  }

  function TrimLeft(s: string, drop: char -> bool): (r: string)
    ensures r == [] || !drop(r[0])
  {
    if s != [] && drop(s[0]) then TrimLeft(s[1..], drop) else s
  }

  function TrimRight(s: string, drop: char -> bool): (r: string)
    ensures r == [] || !drop(r[|r| - 1])
    ensures r <= s
  {
    if s != [] && drop(s[|s| - 1]) then TrimRight(s[..|s| - 1], drop) else s
  }

  function Trim(s: string, drop: char -> bool): string {
    TrimRight(TrimLeft(s, drop), drop)
  }

  function TrimSpace(s: string): string {
    Trim(s, IsSpace)
  }

  /** Only what comes after the last thing worth keeping is looked at. */
  lemma {:induction false} TrimRightKeeps(s: string, rest: string, drop: char -> bool)
    requires s != [] && !drop(s[|s| - 1])
    ensures TrimRight(s + rest, drop) == s + TrimRight(rest, drop)
    decreases |rest|
  {
    if rest == [] {
      assert s + rest == s;
    } else {
      LastApart(s, rest);
      if drop(rest[|rest| - 1]) { TrimRightKeeps(s, rest[..|rest| - 1], drop); }
    }
  }

  /** Text that starts and ends with something worth keeping is left alone. */
  lemma TrimKeeps(s: string, drop: char -> bool)
    requires s != [] && !drop(s[0]) && !drop(s[|s| - 1])
    ensures Trim(s, drop) == s && TrimRight(s, drop) == s
  {}

  /** strings.Cut at a single byte; the third part says whether it was there. */
  function Cut(s: string, sep: char): (r: (string, string, bool))
    ensures r.2 ==> |r.1| < |s|
  {
    if s == [] then ([], [], false)
    else if s[0] == sep then ([], s[1..], true)
    else
      var rest := Cut(s[1..], sep);
      ([s[0]] + rest.0, rest.1, rest.2)
  }

  lemma {:induction false} CutAt(before: string, sep: char, after: string)
    requires sep !in before
    ensures Cut(before + [sep] + after, sep) == (before, after, true)
  {
    var s := before + [sep] + after;
    if before == [] {
      assert s[1..] == after;
    } else {
      assert s[0] == before[0] && [s[0]] + before[1..] == before;
      assert s[1..] == before[1..] + [sep] + after;
      CutAt(before[1..], sep, after);
    }
  }

  lemma {:induction false} CutNone(s: string, sep: char)
    requires sep !in s
    ensures Cut(s, sep) == (s, [], false)
  {
    if s != [] {
      CutNone(s[1..], sep);
      assert s == [s[0]] + s[1..];
    }
  }

  function Split(s: string, sep: char): (r: seq<string>)
    ensures r != []
    decreases |s|
  {
    var cut := Cut(s, sep);
    if cut.2 then [cut.0] + Split(cut.1, sep) else [cut.0]
  }

  function Join(parts: seq<string>, sep: string): string {
    if parts == [] then ""
    else if |parts| == 1 then parts[0]
    else parts[0] + sep + Join(parts[1..], sep)
  }

  lemma {:induction false} SplitJoin(parts: seq<string>, sep: char)
    requires parts != [] && forall part | part in parts :: sep !in part
    ensures Split(Join(parts, [sep]), sep) == parts
  {
    if |parts| == 1 {
      CutNone(parts[0], sep);
    } else {
      CutAt(parts[0], sep, Join(parts[1..], [sep]));
      SplitJoin(parts[1..], sep);
    }
  }

  /** Every part followed by the separator, which is how lines go into a file. */
  function Terminated(parts: seq<string>, sep: char): string {
    if parts == [] then "" else parts[0] + [sep] + Terminated(parts[1..], sep)
  }

  lemma {:induction false} TerminatedAppend(a: seq<string>, b: seq<string>, sep: char)
    ensures Terminated(a + b, sep) == Terminated(a, sep) + Terminated(b, sep)
  {
    if a == [] {
      assert a + b == b;
    } else {
      assert (a + b)[1..] == a[1..] + b;
      TerminatedAppend(a[1..], b, sep);
    }
  }

  /** The lines of a file: what a separator ends, and a last piece that nothing
      ends if there is one. */
  function Pieces(s: string, sep: char): (r: seq<string>)
    decreases |s|
  {
    if s == [] then []
    else
      var cut := Cut(s, sep);
      [cut.0] + (if cut.2 then Pieces(cut.1, sep) else [])
  }

  lemma {:induction false} PiecesTerminated(parts: seq<string>, sep: char)
    requires forall part | part in parts :: sep !in part
    ensures Pieces(Terminated(parts, sep), sep) == parts
  {
    if parts != [] {
      CutAt(parts[0], sep, Terminated(parts[1..], sep));
      PiecesTerminated(parts[1..], sep);
    }
  }

  // Whole numbers in decimal, with strconv's 64-bit range.

  const MIN_INT64 := -0x8000_0000_0000_0000
  const MAX_INT64 := 0x7fff_ffff_ffff_ffff

  predicate IsDigit(c: char) { '0' <= c <= '9' }

  predicate AllDigits(s: string) {
    forall i | 0 <= i < |s| :: IsDigit(s[i])
  }

  function Digits(n: nat): (s: string)
    ensures s != [] && AllDigits(s)
  {
    if n < 10 then ['0' + n as char] else Digits(n / 10) + ['0' + (n % 10) as char]
  }

  function DigitsValue(s: string): nat
    requires AllDigits(s)
  {
    if s == [] then 0
    else DigitsValue(s[..|s| - 1]) * 10 + (s[|s| - 1] as int - '0' as int)
  }

  lemma {:induction false} DigitsRoundTrip(n: nat)
    ensures DigitsValue(Digits(n)) == n
  {
    var s := Digits(n);
    if n >= 10 {
      assert s[..|s| - 1] == Digits(n / 10);
      DigitsRoundTrip(n / 10);
    } else {
      assert s[..|s| - 1] == [];
    }
  }

  /** The number a text spells, whatever its size. */
  function Spelled(s: string): Option<int> {
    var signed := s != [] && (s[0] == '-' || s[0] == '+');
    var digits := if signed then s[1..] else s;
    if digits == [] || !AllDigits(digits) then None
    else
      var n: int := DigitsValue(digits);
      Some(if signed && s[0] == '-' then -n else n)
  }

  function Atoi(s: string): Option<int> {
    var n := Spelled(s);
    if n.Some? && MIN_INT64 <= n.value <= MAX_INT64 then n else None
  }

  /** What is left in the number when strconv.Atoi's error is ignored. */
  function AtoiAnyway(s: string): int {
    match Spelled(s)
    case None => 0
    case Some(n) => if n < MIN_INT64 then MIN_INT64 else if n > MAX_INT64 then MAX_INT64 else n
  }

  function Itoa(n: int): (s: string)
    ensures s != [] && !IsSpace(s[0]) && !IsSpace(s[|s| - 1]) && '\n' !in s && '\r' !in s
  {
    if n < 0 then "-" + Digits(-n) else Digits(n)
  }

  lemma AtoiItoa(n: int)
    requires MIN_INT64 <= n <= MAX_INT64
    ensures Atoi(Itoa(n)) == Some(n)
  {
    DigitsRoundTrip(if n < 0 then -n else n);
    if n < 0 {
      assert Itoa(n)[1..] == Digits(-n);
    } else {
      assert IsDigit(Itoa(n)[0]);
    }
  }
}
