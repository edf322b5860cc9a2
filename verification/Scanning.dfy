/** The scanner of scanner.c, on numbers and symbols. */
module Scanning {

  /** A symbol is its spelling. `Unscanned` stands for what the model leaves out: identifiers,
      strings, characters, comments and errors. */
  datatype Kind = Numeral | Symbol(spelling: seq<char>) | Finish | Unscanned

  datatype Token = Token(kind: Kind, start: nat, size: nat)

  /** The source ends with a NUL. */
  function At(s: seq<char>, p: nat): char {
    if p < |s| then s[p] else '\0'
  }

  predicate IsSpace(c: char) {
    c == ' ' || c == '\t' || c == '\\' || c == '\r' || c == '\n'
  }

  predicate IsDigit(c: char) {
    '0' <= c <= '9'
  }

  predicate IsAlpha(c: char) {
    'A' <= c <= 'Z' || 'a' <= c <= 'z' || c == '_'
  }

  // ---------------------------------------------------------- specification

  function SkipSpace(s: seq<char>, p: nat): (q: nat)
    ensures p <= q && !IsSpace(At(s, q)) && forall k :: p <= k < q ==> IsSpace(At(s, k))
    decreases |s| - p
  {
    if p < |s| && IsSpace(s[p]) then SkipSpace(s, p + 1) else p
  }

  function DigitsEnd(s: seq<char>, p: nat): (q: nat)
    ensures p <= q && !IsDigit(At(s, q)) && forall k :: p <= k < q ==> IsDigit(At(s, k))
    ensures p <= |s| ==> q <= |s|
    decreases |s| - p
  {
    if p < |s| && IsDigit(s[p]) then DigitsEnd(s, p + 1) else p
  }

  /** Where the number that starts at `p` ends: a fraction needs a digit behind its point. */
  function NumberEnd(s: seq<char>, p: nat): nat {
    var q := DigitsEnd(s, p);
    if At(s, q) == '.' && IsDigit(At(s, q + 1)) then DigitsEnd(s, q + 1) else q
  }

  /** The length of the symbol at `p`, or 0. */
  function SymbolSize(s: seq<char>, p: nat): nat {
    var c, d := At(s, p), At(s, p + 1);
    if c in "()[]{},.;:" then 1
    else if c == '?' then if d == '?' then 2 else 1
    else if c == '/' then if d == '=' then 2 else if d == '/' || d == '*' then 0 else 1
    else if c == '*' || c == '%' || c == '>' || c == '<' then if d == '=' then 2 else 1
    else if c == '-' then if d == '=' || d == '>' || d == '-' then 2 else 1
    else if c == '+' || c == '&' || c == '|' then if d == '=' || d == c then 2 else 1
    else if c == '!' || c == '=' then if d == '=' && At(s, p + 2) == '=' then 3 else if d == '=' then 2 else 1
    else 0
  }

  /** How many newlines lie in `[p, q)`. */
  function Newlines(s: seq<char>, p: nat, q: nat): nat
    requires p <= q <= |s|
  {
    multiset(s[p..q])['\n']
  }

  lemma NextNewline(s: seq<char>, p: nat, q: nat)
    requires p <= q < |s|
    ensures Newlines(s, p, q + 1) == Newlines(s, p, q) + if s[q] == '\n' then 1 else 0
  {
    assert s[p..q + 1] == s[p..q] + [s[q]];
  }

  lemma MoreNewlines(s: seq<char>, p: nat, q: nat, r: nat)
    requires p <= q <= r <= |s| && forall k :: q <= k < r ==> s[k] != '\n'
    ensures Newlines(s, p, r) == Newlines(s, p, q)
  {
    assert s[p..r] == s[p..q] + s[q..r];
    assert '\n' !in s[q..r];
  }

  function Scan(s: seq<char>, p: nat): Token {
    var q := SkipSpace(s, p);
    var c := At(s, q);
    if c == '\0' then Token(Finish, q, 0)
    else if IsDigit(c) then Token(Numeral, q, NumberEnd(s, q + 1) - q)
    else if IsAlpha(c) || SymbolSize(s, q) == 0 || q + SymbolSize(s, q) > |s| then Token(Unscanned, q, 1)
    else Token(Symbol(s[q..q + SymbolSize(s, q)]), q, SymbolSize(s, q))
  }

  // ------------------------------------------------------------ the program

  class Scanner {
    const src: seq<char>
    var start: nat
    var current: nat
    var line: nat

    ghost predicate Valid()
      reads this
    {
      current <= |src| && '\0' !in src
    }

    constructor (src: seq<char>)
      requires '\0' !in src
      ensures Valid() && this.src == src && current == 0
    {
      this.src := src;
      start, current, line := 0, 0, 1;
    }

    function Next(): char
      reads this
    {
      At(src, current)
    }

    method Match(c: char) returns (hit: bool)
      requires Valid() && c != '\0'
      modifies this`current
      ensures Valid() && hit == (At(src, old(current)) == c) && current == old(current) + if hit then 1 else 0
    {
      hit := Next() == c;
      if hit {
        current := current + 1;
      }
    }

    method SkipWhitespace()
      requires Valid()
      modifies this`current, this`line
      ensures Valid() && current == SkipSpace(src, old(current))
      ensures line == old(line) + Newlines(src, old(current), current)
    {
      assert src[current..current] == [];
      while IsSpace(Next())
        invariant Valid() && old(current) <= current && SkipSpace(src, current) == SkipSpace(src, old(current))
        invariant line == old(line) + Newlines(src, old(current), current)
        decreases |src| - current
      {
        NextNewline(src, old(current), current);
        if Next() == '\n' {
          line := line + 1;
        }
        current := current + 1;
      }
    }

    method MakeToken(k: Kind) returns (t: Token)
      requires Valid() && start <= current
      ensures t == Token(k, start, current - start)
    {
      t := Token(k, start, current - start);
    }

    method SkipDigits()
      requires Valid()
      modifies this`current
      ensures Valid() && current == DigitsEnd(src, old(current))
      ensures forall k :: old(current) <= k < current ==> src[k] != '\n'
    {
      while IsDigit(Next())
        invariant Valid() && DigitsEnd(src, current) == DigitsEnd(src, old(current)) && old(current) <= current
        invariant forall k :: old(current) <= k < current ==> src[k] != '\n'
        decreases |src| - current
      {
        current := current + 1;
      }
    }

    /** `number`, its first digit consumed. */
    method Number() returns (t: Token)
      requires Valid() && start <= current
      modifies this`current
      ensures Valid() && current == NumberEnd(src, old(current)) && t == Token(Numeral, start, current - start)
      ensures old(current) <= current && forall k :: old(current) <= k < current ==> src[k] != '\n'
    {
      SkipDigits();
      if Next() == '.' && IsDigit(At(src, current + 1)) {
        current := current + 1;
        SkipDigits();
      }
      t := MakeToken(Numeral);
    }

    /** The `switch` of `scan_token`, its character consumed: how many more characters belong
        to the symbol; -1 for what is not a symbol of the model. */
    method Tail(c: char) returns (more: int)
      requires Valid() && current > 0 && At(src, current - 1) == c && c != '\0'
      modifies this`current
      ensures Valid()
      ensures var n := SymbolSize(src, old(current) - 1);
              if n == 0 then more == -1 else more == n - 1 && current == old(current) + n - 1
      ensures old(current) <= current && forall k :: old(current) <= k < current ==> src[k] != '\n'
    {
      var hit := false;
      if c in "()[]{},.;:" {
        return 0;
      } else if c == '?' {
        hit := Match('?');
      } else if c == '/' {
        hit := Match('=');
        if !hit && (Next() == '/' || Next() == '*') {
          return -1;
        }
      } else if c == '*' || c == '%' || c == '>' || c == '<' {
        hit := Match('=');
      } else if c == '-' {
        hit := Match('=');
        if !hit {
          hit := Match('>');
        }
        if !hit {
          hit := Match('-');
        }
      } else if c == '+' || c == '&' || c == '|' {
        hit := Match('=');
        if !hit {
          hit := Match(c);
        }
      } else if c == '!' || c == '=' {
        if Next() == '=' && At(src, current + 1) == '=' {
          current := current + 2;
          return 2;
        }
        hit := Match('=');
      } else {
        return -1;
      }
      more := if hit then 1 else 0;
    }

    method ScanToken() returns (t: Token)
      requires Valid()
      modifies this
      ensures Valid() && t == Scan(src, old(current))
      ensures t.kind != Unscanned ==> current == t.start + t.size
      ensures old(current) <= current && line == old(line) + Newlines(src, old(current), current)
    {
      hide Newlines;
      SkipWhitespace();
      start := current;
      if Next() == '\0' {
        t := MakeToken(Finish);
        return;
      }
      t := Word();
      MoreNewlines(src, old(current), start, current);
    }

    /** `scan_token`, the white space skipped. */
    method Word() returns (t: Token)
      requires Valid() && start == current && !IsSpace(Next()) && Next() != '\0'
      modifies this`current
      ensures Valid() && t == Scan(src, start) && (t.kind != Unscanned ==> current == t.start + t.size)
      ensures start <= current && forall k :: start <= k < current ==> src[k] != '\n'
    {
      var c := Next();
      current := current + 1;
      if IsAlpha(c) {
        return Token(Unscanned, start, 1);
      }
      if IsDigit(c) {
        t := Number();
        return;
      }
      var more := Tail(c);
      if more == -1 {
        return Token(Unscanned, start, 1);
      }
      t := MakeToken(Symbol(src[start..current]));
    }
  }

  // ------------------------------------------------------- spelling and back

  /** A numeral: digits, perhaps a point and more digits. */
  predicate IsNumeral(w: seq<char>) {
    |w| > 0 && IsDigit(w[0]) && NumberEnd(w, 1) == |w|
  }

  /** A symbol: a word the switch takes whole. */
  predicate IsSymbol(w: seq<char>) {
    |w| > 0 && SymbolSize(w, 0) == |w| && '\0' !in w
  }

  predicate IsWord(w: seq<char>) {
    IsNumeral(w) || IsSymbol(w)
  }

  function KindOf(w: seq<char>): Kind {
    if IsNumeral(w) then Numeral else Symbol(w)
  }

  /** A blank, a tab, a carriage return, a newline, or a backslash. */
  predicate Blank(c: char) {
    c in [' ', '\t', '\r', '\n', '\\']
  }

  /** White space. */
  predicate IsGap(g: seq<char>) {
    forall i :: 0 <= i < |g| ==> Blank(g[i])
  }

  /** A word, and the white space behind it. */
  datatype Written = Written(word: seq<char>, gap: seq<char>)

  /** Words with white space between them. */
  predicate Separated(ws: seq<Written>) {
    forall i :: 0 <= i < |ws| ==> IsWord(ws[i].word) && IsGap(ws[i].gap) && (i < |ws| - 1 ==> ws[i].gap != [])
  }

  function Spelled(ws: seq<Written>): seq<char> {
    if ws == [] then [] else ws[0].word + ws[0].gap + Spelled(ws[1..])
  }

  /** The tokens of the words when they are written from `p` on, and the end of input. */
  function Tokens(ws: seq<Written>, p: nat): seq<Token> {
    if ws == [] then [Token(Finish, p, 0)]
    else [Token(KindOf(ws[0].word), p, |ws[0].word|)] + Tokens(ws[1..], p + |ws[0].word| + |ws[0].gap|)
  }

  /** `n` calls of `scan_token`. */
  function ScanMany(s: seq<char>, p: nat, n: nat): seq<Token>
    decreases n
  {
    if n == 0 then []
    else
      var t := Scan(s, p);
      [t] + ScanMany(s, t.start + t.size, n - 1)
  }

  /** What follows a word: white space, or nothing. */
  predicate Stops(s: seq<char>, p: nat) {
    p == |s| || (p < |s| && Blank(s[p]))
  }

  lemma {:induction false} DigitsSame(w: seq<char>, s: seq<char>, lo: nat, p: nat)
    requires lo + |w| <= |s| && s[lo..lo + |w|] == w && p <= |w| && Stops(s, lo + |w|)
    ensures DigitsEnd(s, lo + p) == lo + DigitsEnd(w, p) && DigitsEnd(w, p) <= |w|
    decreases |w| - p
  {
    if p < |w| {
      assert s[lo + p] == w[p];
      if IsDigit(w[p]) {
        DigitsSame(w, s, lo, p + 1);
      }
    }
  }

  lemma AtSame(w: seq<char>, s: seq<char>, lo: nat, p: nat)
    requires lo + |w| <= |s| && s[lo..lo + |w|] == w && p <= |w| && Stops(s, lo + |w|)
    ensures if p < |w| then At(s, lo + p) == At(w, p) else Blank(At(s, lo + p)) || At(s, lo + p) == '\0'
  {
    if p < |w| {
      assert s[lo + p] == w[p];
    }
  }

  /** A word in its place is scanned whole. */
  lemma ScanWord(w: seq<char>, s: seq<char>, lo: nat)
    requires IsWord(w) && lo + |w| <= |s| && s[lo..lo + |w|] == w && Stops(s, lo + |w|) && '\0' !in s
    ensures Scan(s, lo) == Token(KindOf(w), lo, |w|)
  {
    hide Stops, Blank;
    if IsNumeral(w) {
      NumeralHere(w, s, lo);
      assert s[lo..lo + |w|][0] == w[0];
    } else {
      SymbolHere(w, s, lo);
    }
  }

  lemma NumeralHere(w: seq<char>, s: seq<char>, lo: nat)
    requires IsNumeral(w) && lo + |w| <= |s| && s[lo..lo + |w|] == w && Stops(s, lo + |w|)
    ensures NumberEnd(s, lo + 1) == lo + |w|
  {
    hide Stops;
    DigitsSame(w, s, lo, 1);
    var q := DigitsEnd(w, 1);
    PointSame(w, s, lo, q);
    if q + 1 <= |w| {
      PointSame(w, s, lo, q + 1);
      DigitsSame(w, s, lo, q + 1);
    }
  }

  lemma PointSame(w: seq<char>, s: seq<char>, lo: nat, p: nat)
    requires lo + |w| <= |s| && s[lo..lo + |w|] == w && p <= |w| && Stops(s, lo + |w|)
    ensures if p < |w| then At(s, lo + p) == At(w, p) else At(s, lo + p) != '.' && !IsDigit(At(s, lo + p))
  {
    AtSame(w, s, lo, p);
  }

  lemma SymbolHere(w: seq<char>, s: seq<char>, lo: nat)
    requires IsSymbol(w) && lo + |w| <= |s| && s[lo..lo + |w|] == w && Stops(s, lo + |w|)
    ensures SymbolSize(s, lo) == |w| && !IsSpace(s[lo]) && !IsAlpha(s[lo]) && !IsDigit(s[lo]) && s[lo] == w[0]
  {
    AtSame(w, s, lo, 0);
    AtSame(w, s, lo, 1);
    if |w| >= 2 {
      AtSame(w, s, lo, 2);
    }
  }

  /** White space in front of a word is skipped. */
  lemma {:induction false} ScanGap(s: seq<char>, p: nat, q: nat)
    requires p <= q <= |s| && IsGap(s[p..q])
    ensures Scan(s, p) == Scan(s, q)
    decreases q - p
  {
    if p < q {
      assert s[p] == s[p..q][0] && s[p + 1..q] == s[p..q][1..];
      ScanGap(s, p + 1, q);
    }
  }

  /** Nothing else is skipped. */
  lemma SkipsNoMore(s: seq<char>, p: nat)
    requires p < |s| && !Blank(s[p])
    ensures SkipSpace(s, p) == p
  {
  }

  lemma ScanEnd(s: seq<char>)
    ensures Scan(s, |s|) == Token(Finish, |s|, 0) && ScanMany(s, |s|, 1) == [Token(Finish, |s|, 0)]
  {
    hide SymbolSize, NumberEnd;
    var t := Scan(s, |s|);
    assert ScanMany(s, t.start + t.size, 0) == [];
  }

  /** The first word of several, in its place. */
  lemma FirstWord(pre: seq<char>, ws: seq<Written>)
    requires Separated(ws) && |ws| > 0
    ensures var s, p := pre + Spelled(ws), |pre| + |ws[0].word|;
            var q := p + |ws[0].gap|;
            && q <= |s| && s[|pre|..p] == ws[0].word && s[p..q] == ws[0].gap && Stops(s, p)
            && s == pre + ws[0].word + ws[0].gap + Spelled(ws[1..])
  {
    hide IsWord, Blank;
    var s, w, g := pre + Spelled(ws), ws[0].word, ws[0].gap;
    var rest := Spelled(ws[1..]);
    assert s == pre + w + g + rest;
    if |ws| == 1 {
      assert rest == [];
    }
    if g != [] {
      assert IsGap(g) && s[|pre| + |w|] == g[0];
    }
  }

  lemma OneMore(s: seq<char>, ws: seq<Written>, lo: nat)
    requires |ws| > 0
    requires
      var p := lo + |ws[0].word|;
      var q := p + |ws[0].gap|;
      && q <= |s| && IsGap(s[p..q]) && Scan(s, lo) == Token(KindOf(ws[0].word), lo, |ws[0].word|)
      && ScanMany(s, q, |ws|) == Tokens(ws[1..], q)
    ensures ScanMany(s, lo, |ws| + 1) == Tokens(ws, lo)
  {
    hide *;
    var p := lo + |ws[0].word|;
    var q := p + |ws[0].gap|;
    ScanGap(s, p, q);
    ScanManyStep(s, p, |ws|);
    ScanManyStep(s, q, |ws|);
    ScanManyStep(s, lo, |ws| + 1);
    TokensStep(ws, lo);
  }

  lemma ScanManyStep(s: seq<char>, p: nat, n: nat)
    requires n > 0
    ensures var t := Scan(s, p); ScanMany(s, p, n) == [t] + ScanMany(s, t.start + t.size, n - 1)
  {
    hide Scan;
  }

  lemma TokensStep(ws: seq<Written>, lo: nat)
    requires |ws| > 0
    ensures Tokens(ws, lo) ==
            [Token(KindOf(ws[0].word), lo, |ws[0].word|)] + Tokens(ws[1..], lo + |ws[0].word| + |ws[0].gap|)
  {
    hide KindOf;
  }

  /** Scanning undoes spelling, whatever white space there is: the words come back with their
      kinds and their exact places, and then the end of the input. */
  lemma {:induction false} ScansBack(pre: seq<char>, ws: seq<Written>)
    requires Separated(ws) && '\0' !in pre + Spelled(ws)
    ensures ScanMany(pre + Spelled(ws), |pre|, |ws| + 1) == Tokens(ws, |pre|)
    decreases |ws|
  {
    hide Scan, IsWord, KindOf, Stops, IsGap;
    var s := pre + Spelled(ws);
    if ws == [] {
      assert s == pre;
      ScanEnd(s);
    } else {
      FirstWord(pre, ws);
      ScanWord(ws[0].word, s, |pre|);
      ScansBack(pre + ws[0].word + ws[0].gap, ws[1..]);
      OneMore(s, ws, |pre|);
    }
  }

  /** White space in front of the first word changes nothing. */
  lemma ScansBackBehind(gap: seq<char>, ws: seq<Written>)
    requires IsGap(gap) && Separated(ws) && '\0' !in gap + Spelled(ws)
    ensures ScanMany(gap + Spelled(ws), 0, |ws| + 1) == Tokens(ws, |gap|)
  {
    hide Scan, IsWord, IsGap, Separated;
    var s := gap + Spelled(ws);
    assert s[0..|gap|] == gap;
    ScanGap(s, 0, |gap|);
    ScanManyStep(s, 0, |ws| + 1);
    ScanManyStep(s, |gap|, |ws| + 1);
    ScansBack(gap, ws);
  }

  // -------------------------------------------------------- which words there are

  const DIGITS := "0123456789"

  predicate AllDigits(w: seq<char>) {
    w != [] && forall i :: 0 <= i < |w| ==> w[i] in DIGITS
  }

  lemma DigitChars(c: char)
    ensures IsDigit(c) <==> c in DIGITS
  {
    assert c in DIGITS <==> exists i :: 0 <= i < 10 && DIGITS[i] == c;
  }

  lemma DigitsTo(w: seq<char>, p: nat, q: nat)
    requires p <= q <= |w| && (forall k :: p <= k < q ==> IsDigit(w[k])) && (q < |w| ==> !IsDigit(w[q]))
    ensures DigitsEnd(w, p) == q
    decreases q - p
  {
    if p < q {
      DigitsTo(w, p + 1, q);
    }
  }

  /** A numeral is digits, or digits, a point and digits. */
  lemma Numerals(w: seq<char>)
    ensures IsNumeral(w) <==> AllDigits(w) || exists k :: Pointed(w, k)
  {
    hide DIGITS, DigitsEnd, AllDigits, IsDigit;
    if IsNumeral(w) {
      NumeralParts(w);
    }
    if AllDigits(w) {
      WholeNumeral(w);
    }
    if k :| Pointed(w, k) {
      PointedNumeral(w, k);
    }
  }

  predicate Pointed(w: seq<char>, k: nat) {
    0 < k < |w| && AllDigits(w[..k]) && w[k] == '.' && AllDigits(w[k + 1..])
  }

  lemma Digits()
    ensures forall c :: IsDigit(c) <==> c in DIGITS
    ensures !IsDigit('.') && !IsDigit('\0')
  {
    forall c ensures IsDigit(c) <==> c in DIGITS {
      DigitChars(c);
    }
  }

  lemma NumeralParts(w: seq<char>)
    requires IsNumeral(w)
    ensures AllDigits(w) || Pointed(w, DigitsEnd(w, 1))
  {
    Digits();
    hide DIGITS;
    var q := DigitsEnd(w, 1);
    forall i | 0 <= i < q ensures w[i] in DIGITS {
      assert IsDigit(At(w, i));
    }
    if q < |w| {
      forall i | q < i < |w| ensures w[i] in DIGITS {
        assert IsDigit(At(w, i));
      }
    }
  }

  lemma WholeNumeral(w: seq<char>)
    requires AllDigits(w)
    ensures IsNumeral(w)
  {
    Digits();
    hide DIGITS;
    DigitsTo(w, 1, |w|);
  }

  lemma PointedNumeral(w: seq<char>, k: nat)
    requires Pointed(w, k)
    ensures IsNumeral(w)
  {
    Digits();
    hide DIGITS;
    assert forall i :: 0 <= i < k ==> w[i] == w[..k][i];
    assert forall i :: k < i < |w| ==> w[i] == w[k + 1..][i - k - 1];
    DigitsTo(w, 1, k);
    DigitsTo(w, k + 1, |w|);
  }

  const SINGLE := "()[]{},.;:?/*%><-+&|!="
  const DOUBLE: seq<string> := ["??", "/=", "*=", "%=", ">=", "<=", "-=", "->", "--", "+=", "++", "&=", "&&", "|=",
                                "||", "!=", "=="]
  const TRIPLE: seq<string> := ["!==", "==="]

  /** The spellings of the symbols. */
  predicate Listed(w: seq<char>) {
    (|w| == 1 && w[0] in SINGLE) || w in DOUBLE || w in TRIPLE
  }

  lemma Symbols(w: seq<char>)
    ensures IsSymbol(w) <==> Listed(w)
  {
    if |w| == 1 {
      OneChar(w);
    } else if |w| == 2 {
      TwoChars(w);
    } else if |w| == 3 {
      ThreeChars(w);
    }
  }

  lemma OneChar(w: seq<char>)
    requires |w| == 1
    ensures IsSymbol(w) <==> Listed(w)
  {
  }

  lemma TwoChars(w: seq<char>)
    requires |w| == 2
    ensures IsSymbol(w) <==> Listed(w)
  {
    assert w == [w[0], w[1]];
    assert Listed(w) <==> exists i :: 0 <= i < |DOUBLE| && DOUBLE[i] == w;
  }

  lemma ThreeChars(w: seq<char>)
    requires |w| == 3
    ensures IsSymbol(w) <==> Listed(w)
  {
    assert w == [w[0], w[1], w[2]];
  }

  lemma SymbolCut(s: seq<char>, p: nat, m: nat)
    requires p < m <= |s| && '\0' !in s
    ensures p + SymbolSize(s, p) <= |s|
    ensures m == p + SymbolSize(s, p) ==> SymbolSize(s[p..m], 0) == m - p
    ensures SymbolSize(s, p) > 0 && SymbolSize(s[p..m], 0) == m - p ==> m - p <= SymbolSize(s, p)
  {
    var w := s[p..m];
    assert At(w, 0) == At(s, p);
    assert |w| > 1 ==> At(w, 1) == At(s, p + 1);
    assert |w| > 2 ==> At(w, 2) == At(s, p + 2);
  }

  /** The longest symbol is taken: no longer one begins there. */
  lemma LongestSymbol(s: seq<char>, p: nat, m: nat)
    requires p < m <= |s| && '\0' !in s
    ensures var n := SymbolSize(s, p);
            p + n <= |s| && (n > 0 ==> Listed(s[p..p + n])) && (n > 0 && m > p + n ==> !Listed(s[p..m]))
  {
    hide Listed, SymbolSize;
    var n := SymbolSize(s, p);
    SymbolCut(s, p, m);
    Symbols(s[p..m]);
    if n > 0 {
      SymbolCut(s, p, p + n);
      Symbols(s[p..p + n]);
    }
  }

  /** No symbol is found only where none begins, or where a comment does. */
  lemma NoSymbol(s: seq<char>, p: nat)
    requires p < |s|
    ensures SymbolSize(s, p) == 0 <==> s[p] !in SINGLE || (s[p] == '/' && p + 1 < |s| && s[p + 1] in "/*")
  {
    if s[p] in SINGLE {
      var i :| 0 <= i < |SINGLE| && SINGLE[i] == s[p];
    }
  }
}
