/** Integers as decimal text: object_string.c. */
module Text {

  /** C's `/` truncates toward zero, and `%` takes the sign of the dividend. */
  function Quot(n: int, d: nat): int
    requires d > 0
  {
    if n < 0 then -((-n) / d) else n / d
  }

  function Abs(n: int): nat {
    if n < 0 then -n else n
  }

  function TenTo(k: nat): nat {
    if k == 0 then 1 else 10 * TenTo(k - 1)
  }

  // -------------------------------------------------------------- spelling

  function DigitChar(d: nat): char
    requires d < 10
  {
    ('0' as int + d) as char
  }

  predicate IsDigit(c: char) {
    '0' <= c <= '9'
  }

  function DigitValue(c: char): nat
    requires IsDigit(c)
  {
    c as int - '0' as int
  }

  function Digits(m: nat): (s: seq<char>)
    ensures |s| > 0 && forall i :: 0 <= i < |s| ==> IsDigit(s[i])
  {
    if m < 10 then [DigitChar(m)] else Digits(m / 10) + [DigitChar(m % 10)]
  }

  /** The decimal spelling of an integer. */
  function Spell(n: int): seq<char> {
    (if n < 0 then ['-'] else []) + Digits(Abs(n))
  }

  // --------------------------------------------------------------- reading

  /** The number that the leading digits of `s` spell, after `acc`. */
  function Leading(s: seq<char>, acc: nat): nat {
    if s == [] || !IsDigit(s[0]) then acc else Leading(s[1..], 10 * acc + DigitValue(s[0]))
  }

  /** `atoll` (section 7.22.1.2 of ISO C11), on text without leading space: an optional sign,
      then digits up to the first other character. */
  function Atoll(s: seq<char>): int {
    if s != [] && s[0] == '-' then -(Leading(s[1..], 0) as int)
    else if s != [] && s[0] == '+' then Leading(s[1..], 0)
    else Leading(s, 0)
  }

  lemma {:induction false} LeadingAppend(s: seq<char>, c: char, acc: nat)
    requires IsDigit(c) && forall i :: 0 <= i < |s| ==> IsDigit(s[i])
    ensures Leading(s + [c], acc) == 10 * Leading(s, acc) + DigitValue(c)
    decreases |s|
  {
    if s == [] {
      assert (s + [c])[1..] == [];
    } else {
      assert (s + [c])[1..] == s[1..] + [c];
      LeadingAppend(s[1..], c, 10 * acc + DigitValue(s[0]));
    }
  }

  lemma {:induction false} LeadingDigits(m: nat)
    ensures Leading(Digits(m), 0) == m
    decreases m
  {
    if m < 10 {
      assert Digits(m)[1..] == [];
    } else {
      LeadingDigits(m / 10);
      LeadingAppend(Digits(m / 10), DigitChar(m % 10), 0);
    }
  }

  /** Reading back what was spelled gives the number again, whatever follows that is no digit. */
  lemma ReadBack(n: int)
    ensures Atoll(Spell(n)) == n
  {
    LeadingDigits(Abs(n));
    if n < 0 {
      assert Spell(n)[1..] == Digits(Abs(n));
    } else {
      assert Spell(n) == Digits(n);
      assert IsDigit(Spell(n)[0]);
    }
  }

  /** The spelling of a number has `k` digits exactly when it lies between powers of ten. */
  lemma {:induction false} DigitCount(m: nat, k: nat)
    requires m > 0
    ensures |Digits(m)| == k <==> k > 0 && TenTo(k - 1) <= m < TenTo(k)
    decreases m
  {
    if k == 0 {
    } else if m < 10 {
      assert TenTo(0) == 1 && TenTo(1) == 10;
      if k > 1 {
        PowerGrows(1, k - 1);
      }
    } else if k == 1 {
      assert TenTo(1) == 10;
    } else {
      DigitCount(m / 10, k - 1);
      assert TenTo(k - 1) == 10 * TenTo(k - 2) && TenTo(k) == 10 * TenTo(k - 1);
      assert m / 10 < TenTo(k - 1) <==> m < 10 * TenTo(k - 1);
      assert TenTo(k - 2) <= m / 10 <==> 10 * TenTo(k - 2) <= m;
    }
  }

  lemma {:induction false} PowerGrows(a: nat, b: nat)
    requires a <= b
    ensures TenTo(a) <= TenTo(b)
    decreases b - a
  {
    if a < b {
      PowerGrows(a, b - 1);
    }
  }

  /** The ten digits, and what each is worth. */
  lemma TenDigits(d: nat)
    requires d < 10
    ensures DigitChar(d) == "0123456789"[d] && DigitValue("0123456789"[d]) == d
  {
    assert "0123456789"[0] == '0' && "0123456789"[1] == '1' && "0123456789"[2] == '2' && "0123456789"[3] == '3'
           && "0123456789"[4] == '4' && "0123456789"[5] == '5' && "0123456789"[6] == '6' && "0123456789"[7] == '7'
           && "0123456789"[8] == '8' && "0123456789"[9] == '9';
  }

  /** The digit `k` places from the end is the number of `10^k`s. */
  lemma {:induction false} DigitAt(m: nat, k: nat)
    requires k < |Digits(m)|
    ensures TenTo(k) > 0 && Digits(m)[|Digits(m)| - 1 - k] == "0123456789"[m / TenTo(k) % 10]
    decreases k
  {
    PowerGrows(0, k);
    if k == 0 {
      TenDigits(m % 10);
    } else {
      assert m >= 10;
      DigitAt(m / 10, k - 1);
      PowerGrows(0, k - 1);
      DivTwice(m, TenTo(k - 1));
    }
  }

  lemma DivTwice(m: nat, p: nat)
    requires p > 0
    ensures m / 10 / p == m / (10 * p)
  {
    var a, q, r := m / 10, m / 10 / p, m / 10 % p;
    assert a == q * p + r;
    assert q * (10 * p) == 10 * (q * p);
    assert m == q * (10 * p) + (10 * r + m % 10);
    Quotient(q, 10 * p, 10 * r + m % 10);
  }

  lemma Quotient(q: nat, p: nat, r: nat)
    requires r < p
    ensures (q * p + r) / p == q
  {
    var x := (q * p + r) / p;
    assert x * p <= q * p + r < x * p + p;
    if x < q {
      assert (x + 1) * p <= q * p by { Scale(x + 1, q, p); }
    } else if x > q {
      assert (q + 1) * p <= x * p by { Scale(q + 1, x, p); }
    }
  }

  lemma Scale(a: nat, b: nat, p: nat)
    requires a <= b
    ensures a * p <= b * p
  {
  }

  /** No spelling begins with a needless zero, and only negative numbers have a sign. */
  lemma {:induction false} NoLeadingZero(n: int)
    ensures Spell(n)[0] == '-' <==> n < 0
    ensures Digits(Abs(n))[0] == '0' <==> n == 0
    ensures Spell(0) == "0" && Spell(-42) == "-42" && Spell(1907) == "1907"
    decreases Abs(n)
  {
    if Abs(n) >= 10 {
      NoLeadingZero(Abs(n) / 10);
    }
    assert Digits(19) == "19" && Digits(190) == "190" && Digits(42) == "42";
  }

  // ------------------------------------------------------------ the program

  /** `longlen`. */
  method LongLen(n: int) returns (count: nat)
    ensures count == |Digits(Abs(n))|
    ensures n != 0 ==> count > 0 && TenTo(count - 1) <= Abs(n) < TenTo(count)
    ensures n == 0 ==> count == 1
  {
    count := 1;
    var m := Quot(n, 10);
    while m != 0
      invariant Abs(m) == 0 ==> |Digits(Abs(n))| == count
      invariant Abs(m) > 0 ==> |Digits(Abs(n))| == count + |Digits(Abs(m))|
      decreases Abs(m)
    {
      count := count + 1;
      m := Quot(m, 10);
    }
    if n != 0 {
      DigitCount(Abs(n), count);
    }
  }

  function Reversed(s: seq<char>): (r: seq<char>)
    ensures |r| == |s| && forall i :: 0 <= i < |s| ==> r[i] == s[|s| - 1 - i]
  {
    seq(|s|, i requires 0 <= i < |s| => s[|s| - 1 - i])
  }

  lemma ReversedPush(s: seq<char>, c: char)
    ensures Reversed(s + [c]) == [c] + Reversed(s)
  {
  }

  lemma ReversedTwice(s: seq<char>)
    ensures Reversed(Reversed(s)) == s
    ensures '\0' in s ==> '\0' in Reversed(s)
  {
    if '\0' in s {
      var k :| 0 <= k < |s| && s[k] == '\0';
      assert Reversed(s)[|s| - 1 - k] == '\0';
    }
  }

  lemma SpellClean(n: int)
    ensures '\0' !in Spell(n) && |Spell(n)| == |Digits(Abs(n))| + if n < 0 then 1 else 0
  {
  }

  /** `strlen`: the index of the first NUL. */
  method StrLen(c: array<char>) returns (n: nat)
    requires exists k :: 0 <= k < c.Length && c[k] == '\0'
    ensures n < c.Length && c[n] == '\0' && forall k :: 0 <= k < n ==> c[k] != '\0'
  {
    n := 0;
    while c[n] != '\0'
      invariant n < c.Length && forall k :: 0 <= k < n ==> c[k] != '\0'
      decreases c.Length - n
    {
      n := n + 1;
    }
  }

  /** `string_rev`: in place, up to the NUL. */
  method StringRev(c: array<char>, ghost n: nat)
    requires n < c.Length && c[n] == '\0' && forall k :: 0 <= k < n ==> c[k] != '\0'
    modifies c
    ensures c[..n] == Reversed(old(c[..n])) && c[n..] == old(c[n..])
  {
    var len := StrLen(c);
    var from, to := 0, len as int - 1;
    while from < to
      invariant 0 <= from <= to + 1 <= len && from + to == len - 1
      invariant forall k :: 0 <= k < from || to < k < len ==> c[k] == old(c[len - 1 - k])
      invariant forall k :: from <= k <= to ==> c[k] == old(c[k])
      invariant forall k :: len <= k < c.Length ==> c[k] == old(c[k])
    {
      c[from], c[to] := c[to], c[from];
      from, to := from + 1, to - 1;
    }
  }

  /** The first loop of `lltoa`: the digits, the last one first. */
  method WriteDigits(ch: array<char>, m: nat) returns (p: nat)
    requires |Digits(m)| < ch.Length
    modifies ch
    ensures p == |Digits(m)| && Reversed(ch[..p]) == Digits(m)
    ensures forall k :: p <= k < ch.Length ==> ch[k] == old(ch[k])
  {
    hide DigitChar;
    var tmp := m;
    ch[0] := DigitChar(tmp % 10);
    p := 1;
    tmp := tmp / 10;
    assert Reversed(ch[..1]) == [DigitChar(m % 10)];
    while tmp != 0
      invariant 1 <= p <= |Digits(m)|
      invariant Digits(m) == (if tmp == 0 then [] else Digits(tmp)) + Reversed(ch[..p])
      invariant forall k :: p <= k < ch.Length ==> ch[k] == old(ch[k])
      decreases tmp
    {
      ghost var before := ch[..p];
      ghost var rest := Digits(tmp);
      assert p < |Digits(m)|;
      ch[p] := DigitChar(tmp % 10);
      assert ch[..p + 1] == before + [DigitChar(tmp % 10)];
      ReversedPush(before, DigitChar(tmp % 10));
      p := p + 1;
      tmp := tmp / 10;
      assert rest == (if tmp == 0 then [] else Digits(tmp)) + [ch[p - 1]];
    }
  }

  /** `lltoa`, for 64-bit numbers above the smallest. `size` is what the program allocates; the
      buffer of the model is one cell longer. The text is the spelling of `n`. Digits and
      terminator fill the allocation exactly when `n` is not negative; for a negative number
      the terminator is written to the cell behind it. */
  method Lltoa(n: int) returns (ch: array<char>, size: nat)
    requires -0x8000_0000_0000_0000 < n < 0x8000_0000_0000_0000
    ensures fresh(ch) && size == |Digits(Abs(n))| + 1 && ch.Length == size + 1
    ensures var len := |Spell(n)|; len < ch.Length && ch[..len] == Spell(n) && ch[len] == '\0' && '\0' !in ch[..len]
    ensures |Spell(n)| + 1 <= size <==> n >= 0
    ensures n >= 0 ==> |Spell(n)| + 1 == size
  {
    var count := LongLen(n);
    size := count + 1;
    ch := new char[size + 1](_ => '\0');
    var p := WriteDigits(ch, if n < 0 then -n else n);
    ghost var digits := ch[..p];
    if n < 0 {
      ch[p] := '-';
      assert ch[..p + 1] == digits + ['-'];
      ReversedPush(digits, '-');
      p := p + 1;
    }
    ch[p] := '\0';
    SpellClean(n);
    assert Reversed(ch[..p]) == Spell(n);
    Finish(ch, p, n);
  }

  /** The last step of `lltoa`: the text, spelled backwards so far, is reversed. */
  method Finish(ch: array<char>, p: nat, ghost n: int)
    requires p < ch.Length && ch[p] == '\0' && Reversed(ch[..p]) == Spell(n)
    modifies ch
    ensures ch[..p] == Spell(n) && ch[p] == '\0' && '\0' !in ch[..p]
  {
    hide Reversed, Spell;
    ghost var text := ch[..p];
    SpellClean(n);
    ReversedTwice(text);
    forall k | 0 <= k < p ensures ch[k] != '\0' {
      assert text[k] == ch[k];
    }
    StringRev(ch, p);
    assert ch[p..][0] == ch[p];
  }

  /** Through text and back: `lltoa`, then `str_to_num`. */
  method ThroughText(n: int) returns (m: int)
    requires -0x8000_0000_0000_0000 < n < 0x8000_0000_0000_0000
    ensures m == n
  {
    var ch, size := Lltoa(n);
    var len := StrLen(ch);
    ReadBack(n);
    assert ch[..len] == Spell(n);
    m := Atoll(ch[..len]);
  }
}
