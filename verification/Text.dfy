/** The few string operations the service relies on, with the meaning of Go's strings,
    strconv and bufio packages. */
module Text {
  import opened Records

  // ---------------------------------------------------------------- searching

  predicate HasPrefix(s: string, prefix: string) {
    |prefix| <= |s| && s[..|prefix|] == prefix
  }

  predicate HasSuffix(s: string, suffix: string) {
    |suffix| <= |s| && s[|s| - |suffix|..] == suffix
  }

  predicate OccursAt(s: string, sep: string, i: nat) {
    i + |sep| <= |s| && s[i..i + |sep|] == sep
  }

  /** An occurrence shows every character of `sep`. */
  lemma OccursChars(s: string, sep: string)
    ensures forall j: nat, k: nat :: OccursAt(s, sep, j) && k < |sep| ==> s[j + k] == sep[k]
  {
    forall j: nat, k: nat | OccursAt(s, sep, j) && k < |sep| ensures s[j + k] == sep[k] {
      assert s[j..j + |sep|][k] == sep[k];
    }
  }

  /** The first position from `i` on at which `sep` occurs. */
  function Find(s: string, sep: string, i: nat): (r: Option<nat>)
    ensures r.Some? ==> i <= r.value && OccursAt(s, sep, r.value)
    ensures forall j: nat :: i <= j && (r.Some? ==> j < r.value) ==> !OccursAt(s, sep, j)
    decreases |s| - i
  {
    if i + |sep| > |s| then None
    else if OccursAt(s, sep, i) then Some(i)
    else if i == |s| then None
    else Find(s, sep, i + 1)
  }

  /** strings.Cut: the text before and after the first `sep`. */
  function Cut(s: string, sep: string): Option<(string, string)> {
    match Find(s, sep, 0)
    case None => None
    case Some(i) => Some((s[..i], s[i + |sep|..]))
  }

  lemma CutAt(s: string, sep: string, n: nat)
    requires OccursAt(s, sep, n)
    requires forall j: nat :: j < n ==> !OccursAt(s, sep, j)
    ensures Cut(s, sep) == Some((s[..n], s[n + |sep|..]))
  {
  }

  // ---------------------------------------------------------------- white space

  predicate IsSpace(c: char) {
    var n := c as int;
    0x09 <= n <= 0x0D || n == 0x20 || n == 0x85 || n == 0xA0 || n == 0x1680 || 0x2000 <= n <= 0x200A
    || n == 0x2028 || n == 0x2029 || n == 0x202F || n == 0x205F || n == 0x3000
  }

  function TrimLeft(s: string): string {
    if s != "" && IsSpace(s[0]) then TrimLeft(s[1..]) else s
  }

  function TrimRight(s: string): string {
    if s != "" && IsSpace(s[|s| - 1]) then TrimRight(s[..|s| - 1]) else s
  }

  function TrimSpace(s: string): string {
    TrimRight(TrimLeft(s))
  }

  /** No white space at either end. */
  predicate Tight(s: string) {
    s != "" ==> !IsSpace(s[0]) && !IsSpace(s[|s| - 1])
  }

  // ---------------------------------------------------------------- case

  function LowerChar(c: char): char {
    if 'A' <= c <= 'Z' then (c as int + 32) as char else c
  }

  /** Lower case; letters outside ASCII stay as they are. */
  function Lower(s: string): string {
    seq(|s|, i requires 0 <= i < |s| => LowerChar(s[i]))
  }

  // ---------------------------------------------------------------- numbers

  predicate IsDigit(c: char) {
    '0' <= c <= '9'
  }

  function Digit(n: nat): char
    requires n < 10
  {
    ('0' as int + n) as char
  }

  function DigitValue(c: char): nat
    requires IsDigit(c)
  {
    c as int - '0' as int
  }

  /** Decimal representation. */
  function Itoa(n: nat): (s: string)
    ensures s != "" && forall c :: c in s ==> IsDigit(c)
  {
    if n < 10 then [Digit(n)] else Itoa(n / 10) + [Digit(n % 10)]
  }

  function DecimalValue(s: string): nat
    requires forall c :: c in s ==> IsDigit(c)
  {
    if s == "" then 0 else 10 * DecimalValue(s[..|s| - 1]) + DigitValue(s[|s| - 1])
  }

  predicate Digits(s: string) {
    forall i :: 0 <= i < |s| ==> IsDigit(s[i])
  }

  /** A run of digits ends where something else begins. */
  lemma DigitsEnd(x: string, y: string, s: string, t: string)
    requires Digits(x) && Digits(y) && x + s == y + t
    requires s != "" && !IsDigit(s[0]) && t != "" && !IsDigit(t[0])
    ensures x == y && s == t
  {
    var u := x + s;
    assert u[|x|] == s[0] && u[|y|] == t[0];
    assert forall i :: 0 <= i < |x| ==> IsDigit(u[i]);
    assert forall i :: 0 <= i < |y| ==> u[i] == (y + t)[i] == y[i];
    assert |x| == |y|;
    assert x == u[..|x|] && y == u[..|y|] && s == u[|x|..] && t == u[|y|..];
  }

  const MAX_INT64: int := 0x7FFF_FFFF_FFFF_FFFF

  /** strconv.Atoi on a 64-bit platform: optional sign, digits only, in range. */
  function Atoi(s: string): Option<int> {
    var signed := s != "" && (s[0] == '-' || s[0] == '+');
    var digits := if signed then s[1..] else s;
    if digits == "" || exists i :: 0 <= i < |digits| && !IsDigit(digits[i]) then None
    else
      var v: int := DecimalValue(digits);
      if s[0] == '-' then (if v <= MAX_INT64 + 1 then Some(-v) else None)
      else if v <= MAX_INT64 then Some(v) else None
  }

  lemma {:induction false} DecimalRoundTrip(n: nat)
    ensures DecimalValue(Itoa(n)) == n
  {
    var s := Itoa(n);
    if n >= 10 {
      DecimalRoundTrip(n / 10);
      assert s[..|s| - 1] == Itoa(n / 10);
    } else {
      assert s[..0] == "";
    }
  }

  /** Parsing a printed number gives it back. */
  lemma AtoiInvertsItoa(n: nat)
    requires n <= MAX_INT64
    ensures Atoi(Itoa(n)) == Some(n as int)
  {
    var s := Itoa(n);
    DecimalRoundTrip(n);
    assert s[0] in s && IsDigit(s[0]);
    assert forall i :: 0 <= i < |s| ==> s[i] in s;
  }

  function PowerOfTen(d: nat): nat {
    if d == 0 then 1 else 10 * PowerOfTen(d - 1)
  }

  lemma {:induction false} ItoaLength(n: nat, d: nat)
    requires d > 0 && n < PowerOfTen(d)
    ensures |Itoa(n)| <= d
  {
    if n >= 10 {
      assert d > 1;
      ItoaLength(n / 10, d - 1);
    }
  }

  lemma Int64Length(n: nat)
    requires n <= MAX_INT64
    ensures |Itoa(n)| <= 19
  {
    assert PowerOfTen(5) == 100_000;
    assert PowerOfTen(10) == 10_000_000_000;
    assert PowerOfTen(15) == 1_000_000_000_000_000;
    assert PowerOfTen(19) == 10_000_000_000_000_000_000;
    ItoaLength(n, 19);
  }

  // ---------------------------------------------------------------- lines

  function DropCR(s: string): string {
    if s != "" && s[|s| - 1] == '\r' then s[..|s| - 1] else s
  }

  /** The longest line, its end aside, that a scanner's buffer of 64 KiB can hold. */
  const MAX_LINE := 64 * 1024 - 1

  /** The tokens of a bufio.Scanner: the lines, up to the first that is too long. */
  function Lines(s: string): seq<string>
    decreases |s|
  {
    if s == "" then []
    else match Find(s, "\n", 0)
      case None => if |s| > MAX_LINE then [] else [DropCR(s)]
      case Some(i) => if i > MAX_LINE then [] else [DropCR(s[..i])] + Lines(s[i + 1..])
  }

  lemma LinesCons(line: string, rest: string)
    requires '\n' !in line && (line != "" ==> line[|line| - 1] != '\r')
    ensures Lines(line + "\n" + rest) == if |line| > MAX_LINE then [] else [line] + Lines(rest)
  {
    var s := line + "\n" + rest;
    assert OccursAt(s, "\n", |line|);
    OccursChars(s, "\n");
    forall j: nat | j < |line| ensures !OccursAt(s, "\n", j) {
      assert s[j + 0] == line[j];
    }
    assert Find(s, "\n", 0) == Some(|line|);
    assert s[..|line|] == line && s[|line| + 1..] == rest;
  }
}
