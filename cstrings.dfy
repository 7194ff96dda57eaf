/** The C library string behaviour http_ping.c relies on: `strncmp` used as a prefix
    test, `strchr`, `atoi`, `%d`, precision-limited `%.Ns` and `strncpy` truncation,
    and the conversion of an `int` to `unsigned short`.  A Dafny `string` stands for
    the characters of a C string before its terminating NUL. */
module CStrings {

  /** `strncmp(a, b, strlen(a)) == 0`, or `strncmp(lit, s, strlen(lit)) == 0`: `a` is a prefix of `b`. */
  predicate IsPrefix(a: string, b: string) {
    |a| <= |b| && b[..|a|] == a
  }

  /** `strncmp(arg, name, strlen(arg)) == 0` holds exactly when `arg` is a prefix of `name`:
      the comparison stops after `strlen(arg)` characters, and an `arg` longer than `name`
      differs from it at `name`'s terminating NUL. */
  function StrncmpPrefix(arg: string, name: string): (r: bool)
    ensures r <==> IsPrefix(arg, name)
  {
    if arg == [] then true
    else if name == [] then false
    else arg[0] == name[0] && StrncmpPrefix(arg[1..], name[1..])
  }

  /** `strchr(s, c)`: the index of the first `c` in `s`, or `|s|` when there is none. */
  function IndexOf(s: string, c: char): (i: nat)
    ensures i <= |s|
    ensures i < |s| ==> s[i] == c
    ensures forall j :: 0 <= j < i ==> s[j] != c
  {
    if s == [] then 0
    else if s[0] == c then 0
    else 1 + IndexOf(s[1..], c)
  }

  /** `%.Ns` and `strncpy` of `min(len, n)` characters: at most the first `n` characters. */
  function Truncate(s: string, n: nat): (r: string)
    ensures |r| <= n && IsPrefix(r, s)
    ensures |s| <= n ==> r == s
    ensures |s| > n ==> |r| == n
  {
    if |s| <= n then s else s[..n]
  }

  /** `isspace` in the C locale. */
  predicate IsSpace(c: char) {
    c == ' ' || c == '\t' || c == '\n' || c == '\r' || c as int == 11 || c as int == 12
  }

  predicate IsDigit(c: char) {
    '0' <= c <= '9'
  }

  function DigitValue(c: char): (d: nat)
    requires IsDigit(c)
    ensures d < 10
  {
    c as int - '0' as int
  }

  /** The decimal digits at the front of `s` folded into `acc` left to right, `acc * 10 + d`
      per digit, stopping at the first non-digit. */
  function Accumulate(acc: int, s: string): int
    decreases |s|
  {
    if s == [] || !IsDigit(s[0]) then acc
    else Accumulate(acc * 10 + DigitValue(s[0]), s[1..])
  }

  function DropSpaces(s: string): (r: string)
    ensures |r| <= |s|
    ensures r != [] ==> !IsSpace(r[0])
  {
    if s != [] && IsSpace(s[0]) then DropSpaces(s[1..]) else s
  }

  /** `atoi`: leading white space, an optional sign, then decimal digits up to the first
      non-digit; no digits gives 0. */
  function Atoi(s: string): int
  {
    var t := DropSpaces(s);
    if t != [] && t[0] == '-' then -Accumulate(0, t[1..])
    else if t != [] && t[0] == '+' then Accumulate(0, t[1..])
    else Accumulate(0, t)
  }

  /** The range of a C `int` (32 bits) and of a C `long` (64 bits). */
  const IntMin: int := -0x8000_0000
  const IntMax: int := 0x7FFF_FFFF
  const LongMin: int := -0x8000_0000_0000_0000
  const LongMax: int := 0x7FFF_FFFF_FFFF_FFFF

  /** `(int) n` for a `long` value: reduction to 32-bit two's complement. */
  function Int(n: int): (r: int)
    ensures IntMin <= r <= IntMax
    ensures (r - n) % 0x1_0000_0000 == 0
    ensures IntMin <= n <= IntMax ==> r == n
  {
    (n - IntMin) % 0x1_0000_0000 + IntMin
  }

  /** glibc's `atoi`, `(int) strtol( s, NULL, 10 )`: the value saturates at the range of a
      `long`, and is then cut to an `int`. */
  function AtoiInt(s: string): (r: int)
    ensures IntMin <= r <= IntMax
    ensures IntMin <= Atoi(s) <= IntMax ==> r == Atoi(s)
  {
    var n := Atoi(s);
    Int(if n < LongMin then LongMin else if n > LongMax then LongMax else n)
  }

  /** `(unsigned short) n`: reduction modulo 2^16 (Dafny's `%` is never negative). */
  function UnsignedShort(n: int): (r: int)
    ensures 0 <= r < 0x1_0000
    ensures 0 <= n < 0x1_0000 ==> r == n
  {
    n % 0x1_0000
  }

  /** `%d` of a non-negative number, without leading zeros. */
  function Decimal(n: nat): (s: string)
    ensures s != [] && forall i :: 0 <= i < |s| ==> IsDigit(s[i])
    ensures |s| > 1 ==> s[0] != '0'
  {
    if n < 10 then ['0' + n as char]
    else Decimal(n / 10) + ['0' + (n % 10) as char]
  }

  predicate AllDigits(s: string) {
    forall i :: 0 <= i < |s| ==> IsDigit(s[i])
  }

  /** Appending one digit to an all-digit string appends it to the accumulated value. */
  lemma {:induction false} AccumulateSnoc(acc: int, s: string, c: char)
    requires AllDigits(s) && IsDigit(c)
    ensures Accumulate(acc, s + [c]) == Accumulate(acc, s) * 10 + DigitValue(c)
    decreases |s|
  {
    if s == [] {
      assert (s + [c])[1..] == [];
    } else {
      assert (s + [c])[1..] == s[1..] + [c];
      AccumulateSnoc(acc * 10 + DigitValue(s[0]), s[1..], c);
    }
  }

  /** Accumulation stops at the first character that is not a digit. */
  lemma {:induction false} AccumulateStops(acc: int, s: string, t: string)
    requires AllDigits(s)
    requires t == [] || !IsDigit(t[0])
    ensures Accumulate(acc, s + t) == Accumulate(acc, s)
    decreases |s|
  {
    if s == [] {
      assert s + t == t;
    } else {
      assert (s + t)[1..] == s[1..] + t;
      AccumulateStops(acc * 10 + DigitValue(s[0]), s[1..], t);
    }
  }

  /** `atoi` reads back what `%d` wrote, up to the first non-digit after it. */
  lemma {:induction false} AtoiDecimal(n: nat, t: string)
    requires t == [] || !IsDigit(t[0])
    ensures Atoi(Decimal(n) + t) == n
  {
    var s := Decimal(n);
    assert (s + t)[0] == s[0];
    assert DropSpaces(s + t) == s + t;
    AccumulateStops(0, s, t);
    DecimalValue(n);
  }

  lemma {:induction false} DecimalValue(n: nat)
    ensures Accumulate(0, Decimal(n)) == n
  {
    if n < 10 {
      assert Decimal(n)[1..] == [];
    } else {
      DecimalValue(n / 10);
      AccumulateSnoc(0, Decimal(n / 10), '0' + (n % 10) as char);
    }
  }

  /** `atoi` of a negative number written with `-`. */
  lemma AtoiNegative(n: nat)
    ensures Atoi("-" + Decimal(n)) == -(n as int)
  {
    var s := "-" + Decimal(n);
    assert s[0] == '-' && s[1..] == Decimal(n);
    assert DropSpaces(s) == s;
    DecimalValue(n);
  }
}
