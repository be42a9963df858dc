/** Number formatting and parsing of the kernel's vsprintf. */
module Number {
  import opened Base
  import opened Arith

  const U64: nat := 0x1_0000_0000_0000_0000

  datatype Flags = Flags(zeropad: bool, sign: bool, plus: bool, space: bool, left: bool, special: bool, small: bool)

  // ---------------------------------------------------------------- characters

  /** digits[d]; only d < 16 can be read back. */
  function DigitChar(d: nat, small: bool): char
    requires d < 36
  {
    if d < 10 then '0' + d as char else if small then 'a' + (d - 10) as char else 'A' + (d - 10) as char
  }

  predicate IsDigit(c: char) { '0' <= c <= '9' }

  predicate IsXDigit(c: char) { IsDigit(c) || 'a' <= c <= 'f' || 'A' <= c <= 'F' }

  function DigitValue(c: char): nat
    requires IsXDigit(c)
  {
    if IsDigit(c) then (c - '0') as nat
    else if 'a' <= c then (c - 'a') as nat + 10
    else (c - 'A') as nat + 10
  }

  predicate Accepts(c: char, base: nat) { IsXDigit(c) && DigitValue(c) < base }

  lemma DigitRead(d: nat, small: bool, base: nat)
    requires d < 16 && d < base
    ensures Accepts(DigitChar(d, small), base) && DigitValue(DigitChar(d, small)) == d
  {
  }

  function Rep(c: char, n: int): (r: string)
    ensures |r| == Max(n, 0) && forall i :: 0 <= i < |r| ==> r[i] == c
    decreases Max(n, 0)
  {
    if n <= 0 then [] else [c] + Rep(c, n - 1)
  }

  // ---------------------------------------------------------------- what is printed

  /** The digits of `n`, most significant first, at least one. */
  function Digits(n: nat, base: nat, small: bool): (r: string)
    requires 2 <= base <= 36
    ensures |r| > 0
  {
    if n < base then [DigitChar(n, small)]
    else
      SmallerQuotient(n, base);
      Digits(n / base, base, small) + [DigitChar(n % base, small)]
  }

  /** The 32 bits of an int, read as unsigned. */
  function Bits(num: int): nat
    requires -0x8000_0000 <= num < 0x8000_0000
  {
    if num < 0 then num + TWO_32 else num
  }

  function Magnitude(num: int, f: Flags): nat
    requires -0x8000_0000 <= num < 0x8000_0000
  {
    if f.sign && num < 0 then -num else Bits(num)
  }

  function SignText(num: int, f: Flags): string {
    if f.sign && num < 0 then "-" else if f.plus then "+" else if f.space then " " else ""
  }

  function PrefixText(base: nat, f: Flags): string {
    if !f.special then "" else if base == 8 then "0" else if base == 16 then ['0', DigitChar(33, f.small)] else ""
  }

  /** Precision zeros and digits. */
  function Body(num: int, base: nat, precision: int, f: Flags): string
    requires -0x8000_0000 <= num < 0x8000_0000 && 2 <= base <= 36
  {
    var ds := Digits(Magnitude(num, f), base, f.small);
    Rep('0', precision - |ds|) + ds
  }

  function Padding(num: int, base: nat, size: int, precision: int, f: Flags): int
    requires -0x8000_0000 <= num < 0x8000_0000 && 2 <= base <= 36
  {
    size - |SignText(num, f)| - |PrefixText(base, f)| - |Body(num, base, precision, f)|
  }

  function Text(num: int, base: nat, size: int, precision: int, f: Flags): string
    requires -0x8000_0000 <= num < 0x8000_0000 && 2 <= base <= 36
  {
    Assemble(Padding(num, base, size, precision, f), SignText(num, f), PrefixText(base, f),
             Body(num, base, precision, f), f)
  }

  /** Where the padding goes. */
  function Assemble(pad: int, sign: string, prefix: string, body: string, f: Flags): (r: string)
    ensures |r| == Max(pad, 0) + |sign| + |prefix| + |body|
  {
    if f.left then sign + prefix + body + Rep(' ', pad)
    else if f.zeropad then sign + prefix + Rep('0', pad) + body
    else Rep(' ', pad) + sign + prefix + body
  }

  /** The printed length. */
  lemma TextLength(num: int, base: nat, size: int, precision: int, f: Flags)
    requires -0x8000_0000 <= num < 0x8000_0000 && 2 <= base <= 36
    ensures |Text(num, base, size, precision, f)| ==
            Max(size, |SignText(num, f)| + |PrefixText(base, f)|
                      + Max(|Digits(Magnitude(num, f), base, f.small)|, precision))
  {
  }

  // ---------------------------------------------------------------- printing

  function Rev(s: string): (r: string)
    ensures |r| == |s|
  {
    if s == [] then [] else Rev(s[1..]) + [s[0]]
  }

  lemma {:induction false} RevAppend(s: string, c: char)
    ensures Rev(s + [c]) == [c] + Rev(s)
  {
    if s != [] {
      RevAppend(s[1..], c);
      assert (s + [c])[1..] == s[1..] + [c];
    }
  }

  function Pow2(k: nat): nat { if k == 0 then 1 else 2 * Pow2(k - 1) }

  lemma {:induction false} Pow2Add(a: nat, b: nat)
    ensures Pow2(a + b) == Pow2(a) * Pow2(b)
  {
    if a > 0 { Pow2Add(a - 1, b); }
  }

  lemma Pow2Is32()
    ensures Pow2(32) == TWO_32
  {
    assert Pow2(2) == 4;
    Pow2Add(2, 2);
    Pow2Add(4, 4);
    Pow2Add(8, 8);
    Pow2Add(16, 16);
  }

  /** Digits still to come: none once the number is used up. */
  function Pending(n: nat, base: nat, small: bool): string
    requires 2 <= base <= 36
  {
    if n == 0 then [] else Digits(n, base, small)
  }

  lemma HalveBits(n: nat, base: nat, k: nat)
    requires 0 < n < Pow2(k) && base >= 2
    ensures k > 0 && n / base < Pow2(k - 1) && n / base < n
  {
    var q := n / base;
    assert n == q * base + n % base;
    assert q * base >= q * 2 by { MulMono(q, 2, base); }
  }

  lemma MulMono(q: nat, a: nat, b: nat)
    requires a <= b
    ensures q * a <= q * b
  {
    assert q * b == q * a + q * (b - a);
  }

  lemma PendingStep(n: nat, base: nat, small: bool, done: string)
    requires n > 0 && 2 <= base <= 36
    ensures n % base < 36
    ensures Pending(n, base, small) + done == Pending(n / base, base, small) + ([DigitChar(n % base, small)] + done)
  {
    if n < base {
      DivUnique(n, base, 0, n);
    } else {
      assert n == n / base * base + n % base;
    }
  }

  /** do_div: the last digit comes off. */
  method DoDiv(num: nat, base: nat, small: bool, ghost k: nat, ghost done: string) returns (q: nat, d: nat)
    requires 0 < num < Pow2(k) && 2 <= base <= 36
    ensures k > 0 && q < Pow2(k - 1) && q < num && d < 36
    ensures Pending(num, base, small) + done == Pending(q, base, small) + ([DigitChar(d, small)] + done)
  {
    HalveBits(num, base, k);
    PendingStep(num, base, small, done);
    q, d := num / base, num % base;
  }

  /** The division loop: least significant digit first. */
  method DigitsInto(tmp: array<char>, mag: nat, base: nat, small: bool) returns (i: nat)
    requires tmp.Length == 36 && mag < TWO_32 && 2 <= base <= 36
    modifies tmp
    ensures 0 < i <= 36 && Rev(tmp[..i]) == Digits(mag, base, small)
  {
    if mag == 0 {
      tmp[0] := '0';
      assert tmp[..1] == ['0'];
      return 1;
    }
    i := 0;
    var num: nat := mag;
    Pow2Is32();
    while num != 0
      invariant 0 <= i <= 32 && num < Pow2(32 - i)
      invariant Digits(mag, base, small) == Pending(num, base, small) + Rev(tmp[..i])
      decreases num
    {
      var q, d := DoDiv(num, base, small, 32 - i, Rev(tmp[..i]));
      PushDigit(tmp, i, DigitChar(d, small));
      num, i := q, i + 1;
    }
  }

  method PushDigit(tmp: array<char>, i: nat, c: char)
    requires i < tmp.Length
    modifies tmp
    ensures Rev(tmp[..i + 1]) == [c] + Rev(old(tmp[..i]))
  {
    ghost var was := tmp[..i];
    tmp[i] := c;
    assert tmp[..i + 1] == was + [c];
    RevAppend(was, c);
  }

  /** `while (size-- > 0) *str++ = c;` */
  method Fill(buf: array<char>, at: nat, c: char, size: int) returns (to: nat, left: int)
    requires at + Max(size, 0) <= buf.Length
    modifies buf
    ensures to == at + Max(size, 0) && left == Min(size, 0) - 1
    ensures buf[..to] == old(buf[..at]) + Rep(c, size)
    ensures forall i :: to <= i < buf.Length ==> buf[i] == old(buf[i])
  {
    to, left := at, size;
    while left > 0
      invariant at <= to <= buf.Length && left <= size && to + Max(left, 0) == at + Max(size, 0)
      invariant left >= Min(size, 0) && to - at == size - left
      invariant forall i :: 0 <= i < at ==> buf[i] == old(buf[i])
      invariant forall i :: at <= i < to ==> buf[i] == c
      invariant forall i :: to <= i < buf.Length ==> buf[i] == old(buf[i])
    {
      buf[to] := c;
      to, left := to + 1, left - 1;
    }
    left := left - 1;
  }

  /** `while (i-- > 0) *str++ = tmp[i];` */
  method CopyBack(buf: array<char>, at: nat, tmp: array<char>, n: nat) returns (to: nat)
    requires n <= tmp.Length && at + n <= buf.Length && buf != tmp
    modifies buf
    ensures to == at + n
    ensures buf[..to] == old(buf[..at]) + Rev(tmp[..n])
    ensures forall i :: to <= i < buf.Length ==> buf[i] == old(buf[i])
  {
    to := at;
    var i := n;
    ghost var out := [];
    while i > 0
      invariant 0 <= i <= n && to == at + n - i
      invariant buf[..to] == old(buf[..at]) + out && Rev(tmp[..n]) == out + Rev(tmp[..i])
      invariant forall i :: to <= i < buf.Length ==> buf[i] == old(buf[i])
    {
      i := i - 1;
      assert tmp[..i + 1] == tmp[..i] + [tmp[i]];
      RevAppend(tmp[..i], tmp[i]);
      to := PutChar(buf, to, tmp[i]);
      out := out + [tmp[i]];
    }
  }

  method PutChar(buf: array<char>, at: nat, c: char) returns (to: nat)
    requires at < buf.Length
    modifies buf
    ensures to == at + 1 && buf[..to] == old(buf[..at]) + [c]
    ensures forall i :: to <= i < buf.Length ==> buf[i] == old(buf[i])
  {
    buf[at] := c;
    to := at + 1;
  }

  method Put(buf: array<char>, at: nat, s: string) returns (to: nat)
    requires at + |s| <= buf.Length
    modifies buf
    ensures to == at + |s| && buf[..to] == old(buf[..at]) + s
    ensures forall i :: to <= i < buf.Length ==> buf[i] == old(buf[i])
  {
    to := at;
    while to < at + |s|
      invariant at <= to <= at + |s|
      invariant buf[..to] == old(buf[..at]) + s[..to - at]
      invariant forall i :: to <= i < buf.Length ==> buf[i] == old(buf[i])
    {
      to := PutChar(buf, to, s[to - at]);
    }
  }

  /** number: None is the null pointer returned for a bad base, and nothing is written then. */
  method Print(buf: array<char>, at: nat, num: int, base: int, width: int, precision0: int, f: Flags)
    returns (end: Option<nat>)
    requires -0x8000_0000 <= num < 0x8000_0000 && at <= buf.Length
    requires 2 <= base <= 36 ==> at + |Text(num, base, width, precision0, f)| <= buf.Length
    modifies buf
    ensures end.None? <==> base < 2 || base > 36
    ensures end.None? ==> buf[..] == old(buf[..])
    ensures end.Some? ==> end.value == at + |Text(num, base, width, precision0, f)|
    ensures end.Some? ==> buf[..end.value] == old(buf[..at]) + Text(num, base, width, precision0, f)
    ensures end.Some? ==> forall i :: end.value <= i < buf.Length ==> buf[i] == old(buf[i])
  {
    if base < 2 || base > 36 {
      return None;
    }
    var sign := SignText(num, f);
    var size := width - |sign|;
    if f.special {
      if base == 16 { size := size - 2; } else if base == 8 { size := size - 1; }
    }
    var tmp := new char[36];
    var i := DigitsInto(tmp, Magnitude(num, f), base, f.small);
    var precision := if i > precision0 then i else precision0;
    size := size - precision;
    ghost var body := Rep('0', precision - i) + Rev(tmp[..i]);
    assert body == Body(num, base, precision0, f);
    assert size == Padding(num, base, width, precision0, f);
    var to := Emit(buf, at, tmp, i, precision, size, sign, PrefixText(base, f), f);
    return Some(to);
  }

  /** The writing half of number. A left-justified number is never padded with zeros. */
  method Emit(buf: array<char>, at: nat, tmp: array<char>, i: nat, precision: int, size0: int,
              sign: string, prefix: string, f0: Flags) returns (to: nat)
    requires buf != tmp && i <= tmp.Length && i <= precision
    requires at + Max(size0, 0) + |sign| + |prefix| + precision <= buf.Length
    modifies buf
    ensures to == at + Max(size0, 0) + |sign| + |prefix| + precision
    ensures buf[..to] == old(buf[..at])
                         + Assemble(size0, sign, prefix, Rep('0', precision - i) + Rev(tmp[..i]), f0)
    ensures forall i :: to <= i < buf.Length ==> buf[i] == old(buf[i])
  {
    var f := if f0.left then f0.(zeropad := false) else f0;
    var c := if f.zeropad then '0' else ' ';
    var size;
    to, size := EmitHead(buf, at, size0, c, sign, prefix, f);
    ghost var body := Rep('0', precision - i) + Rev(tmp[..i]);
    Halves(size0, sign, prefix, body, f0, f, size);
    to := EmitTail(buf, to, tmp, i, precision - i, size);
  }

  /** The text as its two halves; `left` is the space still to fill on the right. */
  lemma Halves(size: int, sign: string, prefix: string, body: string, f0: Flags, f: Flags, left: int)
    requires f == if f0.left then f0.(zeropad := false) else f0
    requires if f.left then left == size else left < 0
    ensures Assemble(size, sign, prefix, body, f0) ==
            Head(size, if f.zeropad then '0' else ' ', sign, prefix, f) + (body + Rep(' ', left))
  {
  }

  function Head(size: int, c: char, sign: string, prefix: string, f: Flags): string {
    Rep(' ', if f.zeropad || f.left then 0 else size) + sign + prefix + Rep(c, if f.zeropad && !f.left then size else 0)
  }

  /** Padding, sign and prefix, and the padding after them. */
  method EmitHead(buf: array<char>, at: nat, size: int, c: char, sign: string, prefix: string, f: Flags)
    returns (to: nat, left: int)
    requires at + Max(size, 0) + |sign| + |prefix| <= buf.Length
    modifies buf
    ensures left == if f.left then size else Min(size, 0) - 1 - (if f.zeropad then 0 else 1)
    ensures to == at + |Head(size, c, sign, prefix, f)|
    ensures buf[..to] == old(buf[..at]) + Head(size, c, sign, prefix, f)
    ensures forall i :: to <= i < buf.Length ==> buf[i] == old(buf[i])
  {
    to, left := at, size;
    ghost var first := "";
    if !f.zeropad && !f.left {
      to, left := Fill(buf, to, ' ', left);
      first := Rep(' ', size);
    }
    assert buf[..to] == old(buf[..at]) + first;
    to := Put(buf, to, sign);
    assert buf[..to] == old(buf[..at]) + (first + sign);
    to := Put(buf, to, prefix);
    assert buf[..to] == old(buf[..at]) + (first + sign + prefix);
    if !f.left {
      to, left := Fill(buf, to, c, left);
    }
  }

  /** Precision zeros, the digits and the right padding. */
  method EmitTail(buf: array<char>, at: nat, tmp: array<char>, i: nat, zeros: int, size: int) returns (to: nat)
    requires buf != tmp && i <= tmp.Length && zeros >= 0 && at + zeros + i + Max(size, 0) <= buf.Length
    modifies buf
    ensures to == at + zeros + i + Max(size, 0)
    ensures buf[..to] == old(buf[..at]) + (Rep('0', zeros) + Rev(tmp[..i]) + Rep(' ', size))
    ensures forall i :: to <= i < buf.Length ==> buf[i] == old(buf[i])
  {
    var rest;
    to, rest := Fill(buf, at, '0', zeros);
    to := CopyBack(buf, to, tmp, i);
    assert buf[..to] == old(buf[..at]) + (Rep('0', zeros) + Rev(tmp[..i]));
    to, rest := Fill(buf, to, ' ', size);
  }

  // ---------------------------------------------------------------- parsing

  /** Length of the longest run of digits of this base from `i`. */
  function Span(s: string, i: nat, base: nat): (n: nat)
    requires i <= |s|
    ensures i + n <= |s| && forall j :: i <= j < i + n ==> Accepts(s[j], base)
    ensures i + n < |s| ==> !Accepts(s[i + n], base)
    decreases |s| - i
  {
    if i < |s| && Accepts(s[i], base) then 1 + Span(s, i + 1, base) else 0
  }

  predicate AllDigits(s: string, base: nat) { forall i :: 0 <= i < |s| ==> Accepts(s[i], base) }

  /** The value of a string of digits. */
  function ValueOf(s: string, base: nat): nat
    requires AllDigits(s, base)
  {
    if s == [] then 0 else ValueOf(s[..|s| - 1], base) * base + DigitValue(s[|s| - 1])
  }

  /** The base a zero base stands for and where its digits start; a string ends at its length. */
  function Detect(s: string): (nat, nat) {
    if |s| > 0 && s[0] == '0' then
      if |s| > 2 && s[1] == 'x' && IsXDigit(s[2]) then (16, 2) else (8, 1)
    else (10, 0)
  }

  function Start(s: string, base: nat): (nat, nat) { if base == 0 then Detect(s) else (base, 0) }

  datatype Read = Read(value: nat, end: nat)

  function Strtoul(s: string, base: nat): Read {
    var (b, i) := Start(s, base);
    var n := Span(s, i, b);
    Read(ValueOf(s[i..i + n], b) % U64, i + n)
  }

  lemma ModStep(x: nat, b: nat, v: nat)
    ensures ((x % U64) * b + v) % U64 == (x * b + v) % U64
  {
    var q, r := x / U64, x % U64;
    assert x * b + v == (r * b + v) + (q * b) * U64;
  }

  lemma {:induction false} SpanIs(s: string, i: nat, n: nat, base: nat)
    requires i + n <= |s| && (forall j :: i <= j < i + n ==> Accepts(s[j], base))
    requires i + n < |s| ==> !Accepts(s[i + n], base)
    ensures Span(s, i, base) == n
    decreases n
  {
    if n > 0 { SpanIs(s, i + 1, n - 1, base); }
  }

  lemma ValueAppend(s: string, c: char, base: nat)
    requires AllDigits(s, base) && Accepts(c, base)
    ensures AllDigits(s + [c], base) && ValueOf(s + [c], base) == ValueOf(s, base) * base + DigitValue(c)
  {
    assert (s + [c])[..|s|] == s;
  }

  lemma AppendMod(s: string, c: char, base: nat, result: nat)
    requires AllDigits(s, base) && Accepts(c, base) && result == ValueOf(s, base) % U64
    ensures AllDigits(s + [c], base) && ValueOf(s + [c], base) % U64 == (result * base + DigitValue(c)) % U64
  {
    ValueAppend(s, c, base);
    ModStep(ValueOf(s, base), base, DigitValue(c));
  }

  /** simple_strtoul. */
  method Parse(s: string, base0: nat) returns (r: Read)
    ensures r == Strtoul(s, base0)
  {
    var base, cp := base0, 0;
    if base == 0 {
      base := 10;
      if |s| > 0 && s[0] == '0' {
        base, cp := 8, 1;
        if |s| > 2 && s[1] == 'x' && IsXDigit(s[2]) {
          base, cp := 16, 2;
        }
      }
    }
    var result;
    result, cp := ParseDigits(s, cp, base);
    r := Read(result, cp);
  }

  method ParseDigits(s: string, start: nat, base: nat) returns (result: nat, cp: nat)
    requires start <= |s|
    ensures cp == start + Span(s, start, base) && result == ValueOf(s[start..cp], base) % U64
  {
    result, cp := 0, start;
    while cp < |s| && Accepts(s[cp], base)
      invariant start <= cp <= |s| && forall j :: start <= j < cp ==> Accepts(s[j], base)
      invariant result == ValueOf(s[start..cp], base) % U64
    {
      ghost var run := s[start..cp];
      AppendMod(run, s[cp], base, result);
      assert s[start..cp + 1] == run + [s[cp]];
      result := (result * base + DigitValue(s[cp])) % U64;
      cp := cp + 1;
    }
    SpanIs(s, start, cp - start, base);
  }

  // ---------------------------------------------------------------- reading back

  lemma SmallerQuotient(n: nat, base: nat)
    requires 2 <= base <= n
    ensures n / base < n
  {
    QuotientRemainder(n, base);
    MulMono(n / base, 2, base);
  }

  lemma {:induction false} DigitsRead(n: nat, base: nat, small: bool)
    requires 2 <= base <= 16
    ensures AllDigits(Digits(n, base, small), base) && ValueOf(Digits(n, base, small), base) == n
  {
    if n < base {
      DigitRead(n, small, base);
      assert Digits(n, base, small) == [] + [DigitChar(n, small)];
      ValueAppend([], DigitChar(n, small), base);
    } else {
      var q, d := n / base, n % base;
      QuotientRemainder(n, base);
      SmallerQuotient(n, base);
      DigitsRead(q, base, small);
      DigitRead(d, small, base);
      ValueAppend(Digits(q, base, small), DigitChar(d, small), base);
    }
  }

  lemma {:induction false} ZerosFirst(k: nat, s: string, base: nat)
    requires AllDigits(s, base) && base >= 2
    ensures AllDigits(Rep('0', k) + s, base) && ValueOf(Rep('0', k) + s, base) == ValueOf(s, base)
    decreases |s|, k
  {
    var all := Rep('0', k) + s;
    if s != [] {
      var n := |s| - 1;
      ZerosFirst(k, s[..n], base);
      assert all[..|all| - 1] == Rep('0', k) + s[..n];
    } else if k > 0 {
      ZerosFirst(k - 1, [], base);
      assert all[..|all| - 1] == Rep('0', k - 1) + [];
    }
  }

  predicate Stops(rest: string, base: nat) { rest == [] || !Accepts(rest[0], base) }

  lemma ReadRun(s: string, i: nat, run: string, rest: string, base: nat)
    requires i <= |s| && s[i..] == run + rest && AllDigits(run, base) && Stops(rest, base)
    ensures Span(s, i, base) == |run| && s[i..i + |run|] == run
  {
    forall j | i <= j < i + |run| ensures Accepts(s[j], base) { assert s[j] == s[i..][j - i]; }
    assert i + |run| < |s| ==> s[i + |run|] == s[i..][|run|];
    SpanIs(s, i, |run|, base);
  }

  /** Zeros and the digits of `n`. */
  function Numeral(zeros: nat, n: nat, base: nat, small: bool): string
    requires 2 <= base <= 36
  {
    Rep('0', zeros) + Digits(n, base, small)
  }

  lemma NumeralValue(zeros: nat, n: nat, base: nat, small: bool)
    requires 2 <= base <= 16
    ensures AllDigits(Numeral(zeros, n, base, small), base) && ValueOf(Numeral(zeros, n, base, small), base) == n
  {
    DigitsRead(n, base, small);
    ZerosFirst(zeros, Digits(n, base, small), base);
  }

  lemma SmallMod(x: nat)
    requires x < TWO_32
    ensures x % U64 == x
  {
  }

  lemma ReadIs(s: string, readBase: nat, b: nat, i: nat, run: string)
    requires Start(s, readBase) == (b, i) && i <= |s| && Span(s, i, b) == |run| && s[i..i + |run|] == run
    requires AllDigits(run, b) && ValueOf(run, b) < TWO_32
    ensures Strtoul(s, readBase) == Read(ValueOf(run, b), i + |run|)
  {
    SmallMod(ValueOf(run, b));
  }

  /** A prefix that selects the base, a run of its digits, then something else. */
  lemma ReadWhole(s: string, readBase: nat, prefix: string, run: string, rest: string, base: nat)
    requires s == prefix + (run + rest) && Start(s, readBase) == (base, |prefix|)
    requires AllDigits(run, base) && Stops(rest, base) && ValueOf(run, base) < TWO_32
    ensures Strtoul(s, readBase) == Read(ValueOf(run, base), |prefix| + |run|)
  {
    assert s[|prefix|..] == run + rest;
    ReadRun(s, |prefix|, run, rest, base);
    ReadIs(s, readBase, base, |prefix|, run);
  }

  lemma ReadFromStart(s: string, run: string, rest: string, base: nat)
    requires s == run + rest && base > 0 && AllDigits(run, base) && Stops(rest, base) && ValueOf(run, base) < TWO_32
    ensures Strtoul(s, base) == Read(ValueOf(run, base), |run|)
  {
    assert s[0..] == s;
    ReadRun(s, 0, run, rest, base);
    ReadIs(s, base, base, 0, run);
  }

  /** Nothing but zeros comes before the digits. */
  predicate Plain(num: int, base: nat, size: int, precision: int, f: Flags)
    requires -0x8000_0000 <= num < 0x8000_0000 && 2 <= base <= 36
  {
    SignText(num, f) == "" && (f.left || f.zeropad || Padding(num, base, size, precision, f) <= 0)
  }

  function Trailing(num: int, base: nat, size: int, precision: int, f: Flags): nat
    requires -0x8000_0000 <= num < 0x8000_0000 && 2 <= base <= 36
  {
    if f.left then Max(Padding(num, base, size, precision, f), 0) else 0
  }

  /** The blanks in front. */
  function Leading(num: int, base: nat, size: int, precision: int, f: Flags): nat
    requires -0x8000_0000 <= num < 0x8000_0000 && 2 <= base <= 36
  {
    if f.left || f.zeropad then 0 else Max(Padding(num, base, size, precision, f), 0)
  }

  /** The shape of every printed number: blanks, sign, prefix, zeros, digits, blanks. */
  lemma TextShape(num: int, base: nat, size: int, precision: int, f: Flags) returns (zeros: nat)
    requires -0x8000_0000 <= num < 0x8000_0000 && 2 <= base <= 36
    ensures Text(num, base, size, precision, f) ==
            Rep(' ', Leading(num, base, size, precision, f))
            + (SignText(num, f) + (PrefixText(base, f)
               + (Numeral(zeros, Magnitude(num, f), base, f.small)
                  + Rep(' ', Trailing(num, base, size, precision, f)))))
  {
    var ds := Digits(Magnitude(num, f), base, f.small);
    var pad := Padding(num, base, size, precision, f);
    var inner := if f.zeropad && !f.left then Max(pad, 0) else 0;
    var more := Max(precision - |ds|, 0);
    zeros := inner + more;
    assert Rep('0', inner) + Rep('0', more) == Rep('0', zeros);
    assert Body(num, base, precision, f) == Rep('0', more) + ds;
    var lead, trail := Leading(num, base, size, precision, f), Trailing(num, base, size, precision, f);
    Assembled(pad, lead, inner, trail, SignText(num, f), PrefixText(base, f), Rep('0', more) + ds, f);
    Regroup(PrefixText(base, f), Rep('0', inner), Rep('0', more), ds, Rep(' ', trail));
  }

  lemma Assembled(pad: int, lead: nat, inner: nat, trail: nat, sign: string, prefix: string, body: string, f: Flags)
    requires lead == if f.left || f.zeropad then 0 else Max(pad, 0)
    requires inner == if f.zeropad && !f.left then Max(pad, 0) else 0
    requires trail == if f.left then Max(pad, 0) else 0
    ensures Assemble(pad, sign, prefix, body, f) ==
            Rep(' ', lead) + (sign + (prefix + Rep('0', inner) + body + Rep(' ', trail)))
  {
  }

  /** The shape of a plain number: prefix, zeros, digits, spaces. */
  lemma PlainShape(num: int, base: nat, size: int, precision: int, f: Flags) returns (zeros: nat)
    requires -0x8000_0000 <= num < 0x8000_0000 && 2 <= base <= 36 && Plain(num, base, size, precision, f)
    ensures Text(num, base, size, precision, f) ==
            PrefixText(base, f) + (Numeral(zeros, Bits(num), base, f.small)
                                   + Rep(' ', Trailing(num, base, size, precision, f)))
  {
    zeros := TextShape(num, base, size, precision, f);
  }

  lemma Regroup(p: string, a: string, b: string, c: string, d: string)
    ensures p + a + (b + c) + d == p + ((a + b) + c + d)
  {
  }

  /** Read back in the same base, up to the end of its digits. */
  ghost predicate Recovers(num: int, base: nat, size: int, precision: int, f: Flags, rest: string, readBase: nat)
    requires -0x8000_0000 <= num < 0x8000_0000 && 2 <= base <= 36
  {
    var text := Text(num, base, size, precision, f);
    Strtoul(text + rest, readBase) == Read(Bits(num), |text| - Trailing(num, base, size, precision, f))
  }

  /** Printed and read in the same base, the value comes back exactly when there is no sign character,
      no space in front and no 0x prefix. */
  lemma ReadBack(num: int, base: nat, size: int, precision: int, f: Flags, rest: string)
    requires -0x8000_0000 <= num < 0x8000_0000 && 2 <= base <= 16 && Stops(rest, base)
    ensures Recovers(num, base, size, precision, f, rest, base) <==>
            Plain(num, base, size, precision, f) && !(f.special && base == 16)
  {
    if Plain(num, base, size, precision, f) {
      if f.special && base == 16 {
        HexPrefixStops(num, size, precision, f, rest);
      } else {
        PlainReadBack(num, base, size, precision, f, rest);
      }
    }
  }

  lemma HexPrefixStops(num: int, size: int, precision: int, f: Flags, rest: string)
    requires -0x8000_0000 <= num < 0x8000_0000 && Plain(num, 16, size, precision, f) && f.special
    ensures !Recovers(num, 16, size, precision, f, rest, 16)
  {
    var zeros := PlainShape(num, 16, size, precision, f);
    var text := Text(num, 16, size, precision, f);
    var s := text + rest;
    assert s[0] == '0' && s[1] == DigitChar(33, f.small);
    SpanIs(s, 0, 1, 16);
  }

  lemma PlainReadBack(num: int, base: nat, size: int, precision: int, f: Flags, rest: string)
    requires -0x8000_0000 <= num < 0x8000_0000 && 2 <= base <= 16 && Stops(rest, base)
    requires Plain(num, base, size, precision, f) && !(f.special && base == 16)
    ensures Recovers(num, base, size, precision, f, rest, base)
  {
    var zeros := PlainShape(num, base, size, precision, f);
    var k, t := |PrefixText(base, f)|, Trailing(num, base, size, precision, f);
    assert PrefixText(base, f) == Rep('0', k);
    ReadText(Text(num, base, size, precision, f), k, zeros, Bits(num), base, f.small, t, rest);
  }

  lemma ReadText(text: string, k: nat, zeros: nat, n: nat, base: nat, small: bool, t: nat, rest: string)
    requires 2 <= base <= 16 && n < TWO_32 && Stops(rest, base)
    requires text == Rep('0', k) + (Numeral(zeros, n, base, small) + Rep(' ', t))
    ensures Strtoul(text + rest, base) == Read(n, |text| - t)
  {
    assert Rep('0', k) + Rep('0', zeros) == Rep('0', k + zeros);
    ReadNumeral(text + rest, k + zeros, n, base, small, t, rest);
  }

  lemma ReadNumeral(s: string, zeros: nat, n: nat, base: nat, small: bool, t: nat, rest: string)
    requires 2 <= base <= 16 && n < TWO_32 && Stops(rest, base)
    requires s == Numeral(zeros, n, base, small) + (Rep(' ', t) + rest)
    ensures Strtoul(s, base) == Read(n, |Numeral(zeros, n, base, small)|)
  {
    NumeralValue(zeros, n, base, small);
    ReadFromStart(s, Numeral(zeros, n, base, small), Rep(' ', t) + rest, base);
  }

  lemma Spread(p: string, a: string, b: string, rest: string)
    ensures p + (a + b) + rest == (p + a) + (b + rest) == p + (a + (b + rest))
  {
  }

  /** With base 0 the reader finds the base itself: always for an octal prefix, and for a hex one exactly if it is in
      lower case. */
  lemma ReadBackBaseZero(num: int, base: nat, size: int, precision: int, f: Flags, rest: string)
    requires -0x8000_0000 <= num < 0x8000_0000 && (base == 8 || base == 16) && Stops(rest, base)
    requires Plain(num, base, size, precision, f) && f.special
    ensures Recovers(num, base, size, precision, f, rest, 0) <==> base == 8 || f.small
  {
    var zeros := PlainShape(num, base, size, precision, f);
    var t := Trailing(num, base, size, precision, f);
    ReadPrefixed(Text(num, base, size, precision, f), PrefixText(base, f), zeros, Bits(num), base, f.small, t, rest);
  }

  lemma ReadPrefixed(text: string, prefix: string, zeros: nat, n: nat, base: nat, small: bool, t: nat, rest: string)
    requires (base == 8 && prefix == "0") || (base == 16 && prefix == ['0', if small then 'x' else 'X'])
    requires n < TWO_32 && Stops(rest, base)
    requires text == prefix + (Numeral(zeros, n, base, small) + Rep(' ', t))
    ensures Strtoul(text + rest, 0) == Read(n, |text| - t) <==> base == 8 || small
  {
    var run, after, s := Numeral(zeros, n, base, small), Rep(' ', t) + rest, text + rest;
    NumeralValue(zeros, n, base, small);
    Spread(prefix, run, Rep(' ', t), rest);
    assert s == prefix + (run + after) && |run| > 0;
    assert s[0] == '0' && s[|prefix|] == run[0] && Accepts(run[0], base);
    if base == 8 || small {
      ReadWhole(s, 0, prefix, run, after, base);
    } else {
      assert s[1] == 'X';
    }
  }

  /** 255 in upper-case hex with its prefix is 0XFF, and base 0 reads that as 0. */
  lemma UpperHexIsLost()
    ensures var f := Flags(false, false, false, false, false, true, false);
            Text(255, 16, 0, 0, f) == "0XFF" && Strtoul("0XFF", 0) == Read(0, 1)
  {
    SpanIs("0XFF", 1, 0, 8);
    assert "0XFF"[1..1] == "";
  }

  // ---------------------------------------------------------------- signs

  /** The leading blanks of a string. */
  function Blanks(s: string): (n: nat)
    ensures n <= |s| && (n < |s| ==> s[n] != ' ') && forall i :: 0 <= i < n ==> s[i] == ' '
  {
    if s == [] || s[0] != ' ' then 0 else 1 + Blanks(s[1..])
  }

  lemma {:induction false} BlanksAre(n: nat, s: string)
    requires s == [] || s[0] != ' '
    ensures Blanks(Rep(' ', n) + s) == n
  {
    if n > 0 {
      assert (Rep(' ', n) + s)[1..] == Rep(' ', n - 1) + s;
      BlanksAre(n - 1, s);
    } else {
      assert Rep(' ', n) + s == s;
    }
  }

  datatype SignedRead = SignedRead(value: int, end: nat)

  /** What a reader of signed numbers makes of a string: blanks, a sign or none, and a number in the base. */
  ghost function ReadSigned(s: string, base: nat): SignedRead {
    var i := Blanks(s);
    if i < |s| && (s[i] == '-' || s[i] == '+') then SignedAt(Strtoul(s[i + 1..], base), s[i] == '-', i + 1)
    else SignedAt(Strtoul(s[i..], base), false, i)
  }

  ghost function SignedAt(r: Read, negative: bool, i: nat): SignedRead {
    SignedRead(if negative then 0 - r.value else r.value, i + r.end)
  }

  lemma ReadUnsigned(lead: nat, tail: string, base: nat)
    requires tail != [] && tail[0] != ' ' && tail[0] != '-' && tail[0] != '+'
    ensures ReadSigned(Rep(' ', lead) + tail, base) == SignedAt(Strtoul(tail, base), false, lead)
  {
    var s := Rep(' ', lead) + tail;
    BlanksAre(lead, tail);
    assert s[lead] == tail[0] && s[lead..] == tail;
  }

  lemma ReadWithSign(lead: nat, c: char, tail: string, base: nat)
    requires c == '-' || c == '+'
    ensures ReadSigned(Rep(' ', lead) + ([c] + tail), base) == SignedAt(Strtoul(tail, base), c == '-', lead + 1)
  {
    var s := Rep(' ', lead) + ([c] + tail);
    BlanksAre(lead, [c] + tail);
    assert s[lead] == c && s[lead + 1..] == tail;
  }

  /** The value that is printed: the number itself with the sign flag, its 32 bits without. */
  function Meant(num: int, f: Flags): int
    requires -0x8000_0000 <= num < 0x8000_0000
  {
    if f.sign then num else Bits(num)
  }

  /** A blank before the number counts among those in front. */
  lemma ReadBlank(lead: nat, tail: string, base: nat)
    requires tail != [] && tail[0] != ' ' && tail[0] != '-' && tail[0] != '+'
    ensures ReadSigned(Rep(' ', lead) + ([' '] + tail), base) == SignedAt(Strtoul(tail, base), false, lead + 1)
  {
    assert Rep(' ', lead + 1) + tail == Rep(' ', lead) + ([' '] + tail);
    ReadUnsigned(lead + 1, tail, base);
  }

  /** The sign character as printed, read back. */
  lemma ReadPrintedSign(lead: nat, sign: string, negative: bool, tail: string, base: nat)
    requires tail != [] && tail[0] != ' ' && tail[0] != '-' && tail[0] != '+'
    requires if negative then sign == ['-'] else sign == [] || sign == [' '] || sign == ['+']
    ensures ReadSigned(Rep(' ', lead) + (sign + tail), base) ==
            SignedAt(Strtoul(tail, base), negative, lead + |sign|)
  {
    if sign == [] {
      assert sign + tail == tail;
      ReadUnsigned(lead, tail, base);
    } else if sign == [' '] {
      ReadBlank(lead, tail, base);
    } else {
      ReadWithSign(lead, sign[0], tail, base);
    }
  }

  /** The part of a printed number after its sign. */
  lemma ReadBare(bare: string, prefix: string, zeros: nat, mag: nat, base: nat, f: Flags, t: nat, rest: string)
    requires 2 <= base <= 16 && mag < TWO_32 && Stops(rest, base) && prefix == PrefixText(base, f)
    requires bare == prefix + (Numeral(zeros, mag, base, f.small) + Rep(' ', t))
    ensures |bare| > 0 && Accepts((bare + rest)[0], base)
    ensures Strtoul(bare + rest, base) == Read(mag, |bare| - t) <==> !(f.special && base == 16)
  {
    var run := Numeral(zeros, mag, base, f.small);
    NumeralValue(zeros, mag, base, f.small);
    assert |run| > 0 && Accepts(run[0], base);
    if f.special && base == 16 {
      assert |bare| - t == 2 + |run|;
      HexStops(bare, f.small, rest);
    } else {
      assert prefix == Rep('0', |prefix|);
      ReadText(bare, |prefix|, zeros, mag, base, f.small, t, rest);
    }
  }

  /** Whatever the width, precision and flags, a printed number is read back with its sign, up to the end of its digits,
      exactly if it has no 0x prefix. */
  lemma SignedReadBack(num: int, base: nat, size: int, precision: int, f: Flags, rest: string)
    requires -0x8000_0000 <= num < 0x8000_0000 && 2 <= base <= 16 && Stops(rest, base)
    ensures var text, t := Text(num, base, size, precision, f), Trailing(num, base, size, precision, f);
            t <= |text| &&
            (ReadSigned(text + rest, base) == SignedRead(Meant(num, f), |text| - t) <==> !(f.special && base == 16))
  {
    var zeros := TextShape(num, base, size, precision, f);
    var lead, t := Leading(num, base, size, precision, f), Trailing(num, base, size, precision, f);
    var sign, prefix, mag := SignText(num, f), PrefixText(base, f), Magnitude(num, f);
    var bare := prefix + (Numeral(zeros, mag, base, f.small) + Rep(' ', t));
    ReadBare(bare, prefix, zeros, mag, base, f, t, rest);
    ReadPrintedSign(lead, sign, f.sign && num < 0, bare + rest, base);
    SpreadSign(Rep(' ', lead), sign, bare, rest);
  }

  lemma SpreadSign(a: string, b: string, c: string, d: string)
    ensures a + (b + c) + d == a + (b + (c + d))
  {
  }

  lemma HexStops(bare: string, small: bool, rest: string)
    requires |bare| >= 2 && bare[0] == '0' && bare[1] == DigitChar(33, small)
    ensures Strtoul(bare + rest, 16).end == 1
  {
    var s := bare + rest;
    SpanIs(s, 0, 1, 16);
  }

  /** The first character that is no blank shows the sign: a minus exactly before a negative number printed as signed, a
      plus exactly where it is asked for and there is no minus; a blank asked for instead comes on top of the others. */
  lemma SignShown(num: int, base: nat, size: int, precision: int, f: Flags)
    requires -0x8000_0000 <= num < 0x8000_0000 && 2 <= base <= 16
    ensures var s := Text(num, base, size, precision, f); var i := Blanks(s);
            && i < |s| && (s[i] == '-' <==> f.sign && num < 0)
            && (s[i] == '+' <==> !(f.sign && num < 0) && f.plus)
            && i == Leading(num, base, size, precision, f)
                    + if f.space && !f.plus && !(f.sign && num < 0) then 1 else 0
  {
    var zeros := TextShape(num, base, size, precision, f);
    var lead, t := Leading(num, base, size, precision, f), Trailing(num, base, size, precision, f);
    var sign, prefix, mag := SignText(num, f), PrefixText(base, f), Magnitude(num, f);
    var bare := prefix + (Numeral(zeros, mag, base, f.small) + Rep(' ', t));
    NumeralValue(zeros, mag, base, f.small);
    assert Accepts(bare[0], base);
    FirstShown(lead, sign, bare);
  }

  lemma FirstShown(lead: nat, sign: string, bare: string)
    requires bare != [] && bare[0] != ' ' && (sign == [] || sign == [' '] || sign == ['+'] || sign == ['-'])
    ensures var s := Rep(' ', lead) + (sign + bare); var i := lead + if sign == [' '] then 1 else 0;
            Blanks(s) == i && i < |s| && s[i] == if sign == [] || sign == [' '] then bare[0] else sign[0]
  {
    if sign == [' '] {
      assert Rep(' ', lead + 1) + bare == Rep(' ', lead) + (sign + bare);
      BlanksAre(lead + 1, bare);
    } else {
      BlanksAre(lead, sign + bare);
    }
  }
}
