/**
 * The handful of Python `str` and `int`/`float` built-ins the watcher relies on, written out
 * over `string` (a sequence of Unicode scalar values, as Python's `str` is a sequence of code
 * points): `strip`, `lstrip(c)`, `lower`, `split()`, `split(c)`, `sep.join`, `in`, `startswith`,
 * `isdigit`, `str(int)`, `int(str)` and `float(str)`.
 */
module PyStr {
  import opened Wrappers

  // ---------------------------------------------------------------------------------------------
  // Whitespace and stripping

  /** The characters Python's `str.isspace` accepts (and `strip()`/`split()` remove). */
  predicate IsSpace(c: char) {
    || c == ' '
    || ('\t' <= c <= '\r')
    || ('\U{1C}' <= c <= '\U{1F}')
    || c == '\U{85}' || c == '\U{A0}' || c == '\U{1680}'
    || ('\U{2000}' <= c <= '\U{200A}')
    || c == '\U{2028}' || c == '\U{2029}' || c == '\U{202F}' || c == '\U{205F}' || c == '\U{3000}'
  }

  predicate NoSpace(s: string) {
    forall i :: 0 <= i < |s| ==> !IsSpace(s[i])
  }

  /** `s.lstrip()`: the suffix left after dropping the leading whitespace. */
  function LStrip(s: string): (r: string)
    ensures |r| <= |s| && r == s[|s| - |r|..]
    ensures forall i :: 0 <= i < |s| - |r| ==> IsSpace(s[i])
    ensures r != [] ==> !IsSpace(r[0])
  {
    if s != [] && IsSpace(s[0]) then
      var r := LStrip(s[1..]);
      assert forall i :: 1 <= i < |s| ==> s[i] == s[1..][i - 1];
      r
    else s
  }

  /** `s.rstrip()`: the prefix left after dropping the trailing whitespace. */
  function RStrip(s: string): (r: string)
    ensures |r| <= |s| && r == s[..|r|]
    ensures forall i :: |r| <= i < |s| ==> IsSpace(s[i])
    ensures r != [] ==> !IsSpace(r[|r| - 1])
  {
    if s != [] && IsSpace(s[|s| - 1]) then RStrip(s[..|s| - 1]) else s
  }

  /** `s.strip()`. */
  function Strip(s: string): (r: string)
    ensures |r| <= |s|
    ensures r != [] ==> !IsSpace(r[0]) && !IsSpace(r[|r| - 1])
  {
    RStrip(LStrip(s))
  }

  /** Stripping leaves nothing exactly when the string is all whitespace. */
  lemma StripBlank(s: string)
    ensures Strip(s) == [] <==> forall i :: 0 <= i < |s| ==> IsSpace(s[i])
  {
    var l := LStrip(s);
    assert RStrip(l) == [] ==> l == [];
  }

  /** `r` sits in `s` at offset `a`, with only whitespace before and after it. */
  predicate InfixAt(s: string, r: string, a: int) {
    0 <= a <= |s| - |r| && r == s[a..a + |r|]
    && (forall i :: 0 <= i < a ==> IsSpace(s[i]))
    && (forall i :: a + |r| <= i < |s| ==> IsSpace(s[i]))
  }

  /**
   * What `strip()` leaves: a stretch of the string with only whitespace before and after it,
   * neither starting nor ending with whitespace. (With `StripBlank` this fixes the result.)
   */
  lemma StripShape(s: string)
    ensures exists a :: InfixAt(s, Strip(s), a)
  {
    var l := LStrip(s);
    var r := Strip(s);
    var a := |s| - |l|;
    assert r == l[..|r|];
    assert r == s[a..a + |r|];
    assert forall i :: a + |r| <= i < |s| ==> s[i] == l[i - a];
    assert InfixAt(s, r, a);
  }

  /** Stripping a string that neither starts nor ends with whitespace gives it back. */
  lemma StripKeeps(s: string)
    requires s != [] ==> !IsSpace(s[0]) && !IsSpace(s[|s| - 1])
    ensures Strip(s) == s
  {
  }

  /** Stripping only removes characters. */
  lemma StripMembers(s: string, c: char)
    ensures c in Strip(s) ==> c in s
  {
    var l := LStrip(s);
    var r := RStrip(l);
    if c in r {
      var i :| 0 <= i < |r| && r[i] == c;
      assert l[i] == c;
      assert s[|s| - |l| + i] == c;
    }
  }

  /** `s.lstrip(c)` for a single character `c`. */
  function LStripChar(s: string, c: char): (r: string)
    ensures |r| <= |s| && r == s[|s| - |r|..]
    ensures forall i :: 0 <= i < |s| - |r| ==> s[i] == c
    ensures r != [] ==> r[0] != c
  {
    if s != [] && s[0] == c then
      var r := LStripChar(s[1..], c);
      assert s[1..][|s| - 1 - |r|..] == s[|s| - |r|..];
      assert forall i :: 1 <= i < |s| - |r| ==> s[i] == s[1..][i - 1];
      r
    else s
  }

  // ---------------------------------------------------------------------------------------------
  // Case

  /** ASCII lower-casing of one character. */
  function LowerChar(c: char): char {
    if 'A' <= c <= 'Z' then (c as int + 32) as char else c
  }

  predicate NoUpper(s: string) {
    forall i :: 0 <= i < |s| ==> !('A' <= s[i] <= 'Z')
  }

  /** `s.lower()` restricted to ASCII letters. */
  function Lower(s: string): (r: string)
    ensures |r| == |s| && NoUpper(r)
    ensures forall i :: 0 <= i < |s| && !('A' <= s[i] <= 'Z') ==> r[i] == s[i]
    ensures forall i :: 0 <= i < |s| && 'A' <= s[i] <= 'Z' ==> r[i] == (s[i] as int + 32) as char
  {
    seq(|s|, i requires 0 <= i < |s| => LowerChar(s[i]))
  }

  /** Lower-casing twice is lower-casing once. */
  lemma LowerIdempotent(s: string)
    ensures Lower(Lower(s)) == Lower(s)
  {
  }

  // ---------------------------------------------------------------------------------------------
  // Searching

  predicate StartsWith(s: string, p: string) {
    |p| <= |s| && s[..|p|] == p
  }

  /** `sub` occurs in `s` at position `i`. */
  predicate OccursAt(s: string, sub: string, i: int) {
    0 <= i <= |s| - |sub| && s[i..i + |sub|] == sub
  }

  /** Python's `sub in s`. */
  predicate Contains(s: string, sub: string) {
    exists i :: 0 <= i <= |s| - |sub| && OccursAt(s, sub, i)
  }

  lemma StartsWithContains(s: string, p: string)
    requires StartsWith(s, p)
    ensures Contains(s, p)
  {
    assert OccursAt(s, p, 0);
  }

  /** A substring of a prefix is a substring of the whole. */
  lemma ContainsInPrefix(s: string, k: nat, sub: string)
    requires k <= |s| && Contains(s[..k], sub)
    ensures Contains(s, sub)
  {
    var i :| 0 <= i <= k - |sub| && OccursAt(s[..k], sub, i);
    assert s[..k][i..i + |sub|] == s[i..i + |sub|];
    assert OccursAt(s, sub, i);
  }

  /** The first position of `c` in `s` (what `s.split(c, 1)` cuts at). */
  function IndexOf(s: string, c: char): (i: nat)
    requires c in s
    ensures i < |s| && s[i] == c && c !in s[..i]
  {
    if s[0] == c then 0 else 1 + IndexOf(s[1..], c)
  }

  /** The last position of `c` in `s` (what `s.rsplit(c, 1)` cuts at). */
  function LastIndexOf(s: string, c: char): (i: nat)
    requires c in s
    ensures i < |s| && s[i] == c && c !in s[i + 1..]
  {
    if s[|s| - 1] == c then |s| - 1 else LastIndexOf(s[..|s| - 1], c)
  }

  /** The last `c` is the one no other `c` follows. */
  lemma LastIndexOfAt(s: string, c: char, k: nat)
    requires k < |s| && s[k] == c && c !in s[k + 1..]
    ensures LastIndexOf(s, c) == k
  {
  }

  /** The first `c` is the one no other `c` precedes. */
  lemma IndexOfAt(s: string, c: char, k: nat)
    requires k < |s| && s[k] == c && c !in s[..k]
    ensures IndexOf(s, c) == k
  {
  }

  /** `s.split(c, 1)[0]`: everything before the first `c`, or all of `s`. */
  function CutAt(s: string, c: char): (r: string)
    ensures c !in r && StartsWith(s, r)
    ensures |r| < |s| ==> s[|r|] == c
  {
    if c in s then s[..IndexOf(s, c)] else s
  }

  /** `s.split(c, 1)[-1]`: everything after the first `c`, or all of `s` when there is none. */
  function AfterFirst(s: string, c: char): (r: string)
    ensures |r| <= |s| && r == s[|s| - |r|..]
    ensures c !in s ==> r == s
    ensures c in s ==> |r| < |s| && s[|s| - |r| - 1] == c && c !in s[..|s| - |r| - 1]
  {
    if c in s then s[IndexOf(s, c) + 1..] else s
  }

  /** `s.rsplit(c, 1)[-1]`: everything after the last `c`, or all of `s`. */
  function AfterLast(s: string, c: char): (r: string)
    ensures c !in r && |r| <= |s| && r == s[|s| - |r|..]
    ensures |r| < |s| ==> s[|s| - |r| - 1] == c
  {
    if c in s then s[LastIndexOf(s, c) + 1..] else s
  }

  // ---------------------------------------------------------------------------------------------
  // Splitting and joining

  /** `sep.join(ss)`. */
  function Join(ss: seq<string>, sep: string): string {
    if ss == [] then []
    else if |ss| == 1 then ss[0]
    else ss[0] + sep + Join(ss[1..], sep)
  }

  /** Length of the word at the front of `s` (no whitespace). */
  function WordEnd(s: string): (k: nat)
    ensures k <= |s|
    ensures forall i :: 0 <= i < k ==> !IsSpace(s[i])
    ensures k < |s| ==> IsSpace(s[k])
  {
    if s == [] || IsSpace(s[0]) then 0 else 1 + WordEnd(s[1..])
  }

  predicate IsWord(w: string) {
    w != [] && NoSpace(w)
  }

  /** The words one after the other. */
  function Concat(ws: seq<string>): string {
    if ws == [] then [] else ws[0] + Concat(ws[1..])
  }

  /** The characters of `s` that are not whitespace, in order. */
  function NonSpace(s: string): string {
    if s == [] then [] else (if IsSpace(s[0]) then [] else [s[0]]) + NonSpace(s[1..])
  }

  /** Leading whitespace adds nothing to `NonSpace`. */
  lemma {:induction false} NonSpaceDrop(s: string, n: nat)
    requires n <= |s| && forall i :: 0 <= i < n ==> IsSpace(s[i])
    ensures NonSpace(s) == NonSpace(s[n..])
  {
    if n > 0 {
      assert forall i :: 0 <= i < n - 1 ==> s[1..][i] == s[i + 1];
      NonSpaceDrop(s[1..], n - 1);
      assert s[1..][n - 1..] == s[n..];
    }
  }

  /** `NonSpace` distributes over concatenation. */
  lemma {:induction false} NonSpaceConcat(a: string, b: string)
    ensures NonSpace(a + b) == NonSpace(a) + NonSpace(b)
  {
    if a == [] {
      assert a + b == b;
    } else {
      assert (a + b)[0] == a[0] && (a + b)[1..] == a[1..] + b;
      NonSpaceConcat(a[1..], b);
    }
  }

  /** A string free of whitespace is its own `NonSpace`. */
  lemma {:induction false} NonSpaceKeeps(w: string)
    requires forall i :: 0 <= i < |w| ==> !IsSpace(w[i])
    ensures NonSpace(w) == w
  {
    if w != [] {
      assert forall i :: 0 <= i < |w| - 1 ==> w[1..][i] == w[i + 1];
      NonSpaceKeeps(w[1..]);
    }
  }

  /** A leading word is kept whole by `NonSpace`. */
  lemma NonSpaceWord(t: string, k: nat)
    requires k <= |t| && forall i :: 0 <= i < k ==> !IsSpace(t[i])
    ensures NonSpace(t) == t[..k] + NonSpace(t[k..])
  {
    assert t == t[..k] + t[k..];
    NonSpaceConcat(t[..k], t[k..]);
    NonSpaceKeeps(t[..k]);
  }


  /**
   * `s.split()`: the maximal runs of non-whitespace, in order. Each word is non-empty and free
   * of whitespace, and together they are exactly the non-whitespace characters of `s`.
   */
  function Words(s: string): (r: seq<string>)
    ensures forall w :: w in r ==> IsWord(w)
    ensures Concat(r) == NonSpace(s)
    decreases |s|
  {
    var t := LStrip(s);
    NonSpaceDrop(s, |s| - |t|);
    assert s[|s| - |t|..] == t;
    if t == [] then []
    else
      var k := WordEnd(t);
      assert 0 < k && IsWord(t[..k]);
      NonSpaceWord(t, k);
      var rest := Words(t[k..]);
      assert ([t[..k]] + rest)[1..] == rest;
      [t[..k]] + rest
  }

  /** Leading whitespace does not change `split()`. */
  lemma WordsSkipsSpace(x: string, s: string)
    requires |x| == 1 && IsSpace(x[0])
    ensures Words(x + s) == Words(s)
  {
    assert (x + s)[1..] == s;
  }

  /** `" ".join(ws).split() == ws` for words: re-tokenising joined arguments gives them back. */
  lemma {:induction false} WordsOfJoin(ws: seq<string>)
    requires forall w :: w in ws ==> IsWord(w)
    ensures Words(Join(ws, " ")) == ws
  {
    if ws != [] {
      assert ws[0] in ws;
      if |ws| == 1 {
        WordsOfWord(ws[0]);
      } else {
        assert forall w :: w in ws[1..] ==> w in ws;
        WordsOfJoin(ws[1..]);
        WordsOfJoinStep(ws);
      }
    }
  }

  lemma WordsOfJoinStep(ws: seq<string>)
    requires |ws| >= 2 && IsWord(ws[0]) && Words(Join(ws[1..], " ")) == ws[1..]
    ensures Words(Join(ws, " ")) == ws
  {
    assert Join(ws, " ") == ws[0] + " " + Join(ws[1..], " ");
    WordsOfCons(ws[0], Join(ws[1..], " "));
  }

  /** A single word splits into itself. */
  lemma WordsOfWord(w: string)
    requires IsWord(w)
    ensures Words(w) == [w]
  {
    assert LStrip(w) == w;
    assert WordEnd(w) == |w|;
    assert w[..|w|] == w && w[|w|..] == [];
  }

  /** A word then a space: the word comes first, then the split of the rest. */
  lemma WordsOfCons(w: string, rest: string)
    requires IsWord(w)
    ensures Words(w + " " + rest) == [w] + Words(rest)
  {
    var j := w + " " + rest;
    assert j[0] == w[0];
    assert LStrip(j) == j;
    WordEndAt(j, w);
    assert j[..|w|] == w;
    assert j[|w|..] == " " + rest;
    WordsSkipsSpace(" ", rest);
  }

  /** The word at the front ends where the first whitespace is. */
  lemma WordEndAt(j: string, w: string)
    requires IsWord(w) && |w| < |j| && j[..|w|] == w && IsSpace(j[|w|])
    ensures WordEnd(j) == |w|
  {
  }

  /** `s.split(sep)` for a one-character separator: always at least one piece, none holding `sep`. */
  function Split(s: string, sep: char): (r: seq<string>)
    ensures |r| >= 1
    ensures forall j :: 0 <= j < |r| ==> sep !in r[j]
  {
    if s == [] then [[]]
    else
      var rest := Split(s[1..], sep);
      if s[0] == sep then [[]] + rest else [[s[0]] + rest[0]] + rest[1..]
  }

  /** Joining the pieces of a split with the separator gives back the string. */
  lemma {:induction false} JoinSplit(s: string, sep: char)
    ensures Join(Split(s, sep), [sep]) == s
  {
    if s != [] {
      var rest := Split(s[1..], sep);
      JoinSplit(s[1..], sep);
      if s[0] == sep {
        assert Split(s, sep) == [[]] + rest;
        assert ([[]] + rest)[1..] == rest;
      } else {
        var r := Split(s, sep);
        assert r == [[s[0]] + rest[0]] + rest[1..];
        if |rest| > 1 {
          assert rest == [rest[0]] + rest[1..];
          assert Join(rest, [sep]) == rest[0] + [sep] + Join(rest[1..], [sep]);
          assert r[1..] == rest[1..];
        }
      }
    }
  }

  lemma {:induction false} SplitNoSep(a: string, sep: char)
    requires sep !in a
    ensures Split(a, sep) == [a]
  {
    if a != [] {
      SplitNoSep(a[1..], sep);
      assert [a[0]] + a[1..] == a;
    }
  }

  /** Splitting distributes over a separator. */
  lemma {:induction false} SplitConcat(a: string, b: string, sep: char)
    ensures Split(a + [sep] + b, sep) == Split(a, sep) + Split(b, sep)
  {
    var s := a + [sep] + b;
    if a == [] {
      assert s == [sep] + b && s[1..] == b;
      assert Split(s, sep) == [[]] + Split(b, sep);
    } else {
      assert s[0] == a[0] && s[1..] == a[1..] + [sep] + b;
      SplitConcat(a[1..], b, sep);
      SplitStep(s, a, sep, Split(b, sep));
    }
  }

  /** One step of `SplitConcat`: the same first character, then pieces that agree. */
  lemma SplitStep(s: string, a: string, sep: char, rb: seq<string>)
    requires s != [] && a != [] && s[0] == a[0]
    requires Split(s[1..], sep) == Split(a[1..], sep) + rb
    ensures Split(s, sep) == Split(a, sep) + rb
  {
    if a[0] == sep {
      SplitStepAtSep(s, a, sep, rb);
    } else {
      SplitStepInPiece(s, a, sep, rb);
    }
  }

  lemma SplitStepAtSep(s: string, a: string, sep: char, rb: seq<string>)
    requires s != [] && a != [] && s[0] == a[0] == sep
    requires Split(s[1..], sep) == Split(a[1..], sep) + rb
    ensures Split(s, sep) == Split(a, sep) + rb
  {
    assert Split(s, sep) == [[]] + Split(s[1..], sep);
  }

  lemma SplitStepInPiece(s: string, a: string, sep: char, rb: seq<string>)
    requires s != [] && a != [] && s[0] == a[0] != sep
    requires Split(s[1..], sep) == Split(a[1..], sep) + rb
    ensures Split(s, sep) == Split(a, sep) + rb
  {
    SplitGlue(Split(a[1..], sep), rb, [a[0]]);
  }

  /** Gluing a prefix onto the first piece commutes with appending more pieces. */
  lemma SplitGlue(ra: seq<string>, rb: seq<string>, c: string)
    requires ra != []
    ensures [c + (ra + rb)[0]] + (ra + rb)[1..] == [c + ra[0]] + ra[1..] + rb
  {
    assert (ra + rb)[0] == ra[0];
    assert (ra + rb)[1..] == ra[1..] + rb;
  }

  /** Splitting a join of separator-free pieces gives the pieces back. */
  lemma {:induction false} SplitJoin(ps: seq<string>, sep: char)
    requires ps != []
    requires forall j :: 0 <= j < |ps| ==> sep !in ps[j]
    ensures Split(Join(ps, [sep]), sep) == ps
  {
    if |ps| == 1 {
      SplitNoSep(ps[0], sep);
    } else {
      SplitJoin(ps[1..], sep);
      SplitNoSep(ps[0], sep);
      SplitConcat(ps[0], Join(ps[1..], [sep]), sep);
      assert ps == [ps[0]] + ps[1..];
    }
  }

  // ---------------------------------------------------------------------------------------------
  // Decimal numbers

  predicate IsDigit(c: char) {
    '0' <= c <= '9'
  }

  predicate AllDigits(s: string) {
    forall i :: 0 <= i < |s| ==> IsDigit(s[i])
  }

  /** `s.isdigit()` (ASCII digits only). */
  predicate IsDecimal(s: string) {
    s != [] && AllDigits(s)
  }

  function DigitChar(d: nat): (c: char)
    requires d < 10
    ensures IsDigit(c)
  {
    ('0' as int + d) as char
  }

  function DigitValue(c: char): nat
    requires IsDigit(c)
  {
    c as int - '0' as int
  }

  function Pow10(k: nat): (p: nat)
    ensures p >= 1
  {
    if k == 0 then 1 else 10 * Pow10(k - 1)
  }

  /** The number a string of decimal digits denotes. */
  function ValueOf(s: string): (n: nat)
    requires AllDigits(s)
    ensures n < Pow10(|s|)
  {
    if s == [] then 0 else 10 * ValueOf(s[..|s| - 1]) + DigitValue(s[|s| - 1])
  }

  /** `str(n)` for a natural number: its decimal digits, which denote `n`. */
  function DigitsOf(n: nat): (s: string)
    ensures IsDecimal(s) && ValueOf(s) == n
    ensures s[0] == '0' <==> n == 0
    ensures n == 0 ==> s == "0"
  {
    if n < 10 then [DigitChar(n)]
    else
      var s := DigitsOf(n / 10) + [DigitChar(n % 10)];
      assert s[..|s| - 1] == DigitsOf(n / 10);
      assert s[0] == DigitsOf(n / 10)[0];
      s
  }

  /** The value of a concatenation of digit strings. */
  lemma {:induction false} ValueOfConcat(a: string, b: string)
    requires AllDigits(a) && AllDigits(b)
    ensures ValueOf(a + b) == ValueOf(a) * Pow10(|b|) + ValueOf(b)
  {
    if b != [] {
      var ab := a + b;
      var b' := b[..|b| - 1];
      var d := DigitValue(b[|b| - 1]);
      assert ab[..|ab| - 1] == a + b' && ab[|ab| - 1] == b[|b| - 1];
      assert ValueOf(ab) == 10 * ValueOf(a + b') + d;
      assert ValueOf(b) == 10 * ValueOf(b') + d;
      assert Pow10(|b|) == 10 * Pow10(|b'|);
      ValueOfConcat(a, b');
      Regroup(ValueOf(ab), ValueOf(a + b'), ValueOf(a), Pow10(|b'|), ValueOf(b'), d, Pow10(|b|), ValueOf(b));
    } else {
      assert a + b == a;
    }
  }

  /** The arithmetic step of `ValueOfConcat`. */
  lemma Regroup(ab: int, ab': int, x: int, p: int, y: int, d: int, bigP: int, vb: int)
    requires ab == 10 * ab' + d && ab' == x * p + y
    requires vb == 10 * y + d && bigP == 10 * p
    ensures ab == x * bigP + vb
  {
  }

  /** `str(n)` for any integer. */
  function IntToString(n: int): (s: string)
    ensures s != [] && (s[0] == '-' <==> n < 0)
    ensures s[(if n < 0 then 1 else 0)..] == DigitsOf(Abs(n))
  {
    if n < 0 then "-" + DigitsOf(-n) else DigitsOf(n)
  }

  /** `abs(n)`. */
  function Abs(n: int): nat {
    if n < 0 then -n else n
  }

  /** `int(s)` for a string: optional sign and ASCII digits inside optional whitespace. */
  function ParseInt(s: string): Option<int> {
    var t := Strip(s);
    if |t| > 0 && (t[0] == '-' || t[0] == '+') && IsDecimal(t[1..]) then
      var v: int := ValueOf(t[1..]);
      Some(if t[0] == '-' then -v else v)
    else if IsDecimal(t) then Some(ValueOf(t))
    else None
  }

  /** `int(str(n)) == n`. */
  lemma ParseIntOfString(n: int)
    ensures ParseInt(IntToString(n)) == Some(n)
  {
    var s := IntToString(n);
    StripKeeps(s);
    if n < 0 {
      assert s[1..] == DigitsOf(-n);
    }
  }

  /** The digits of an unsigned decimal with an optional fractional part (`12`, `2.5`, `.5`, `3.`). */
  function ParseUnsignedDecimal(b: string): Option<real> {
    if '.' in b then
      var i := IndexOf(b, '.');
      var whole, frac := b[..i], b[i + 1..];
      if (whole != [] || frac != []) && AllDigits(whole) && AllDigits(frac) then
        Some(ValueOf(whole) as real + ValueOf(frac) as real / Pow10(|frac|) as real)
      else None
    else if IsDecimal(b) then Some(ValueOf(b) as real)
    else None
  }

  /** `float(s)` for plain decimal notation with an optional sign inside optional whitespace. */
  function ParseFloat(s: string): Option<real> {
    var t := Strip(s);
    if t == [] then None
    else if t[0] == '-' || t[0] == '+' then
      match ParseUnsignedDecimal(t[1..])
      case Some(x) => Some(if t[0] == '-' then -x else x)
      case None => None
    else ParseUnsignedDecimal(t)
  }

  /** `float()` of a digit string is the integer it denotes. */
  lemma ParseFloatOfDigits(s: string)
    requires IsDecimal(Strip(s))
    ensures ParseFloat(s) == Some(ValueOf(Strip(s)) as real)
  {
    var t := Strip(s);
    assert !IsDigit('.') && !IsDigit('-') && !IsDigit('+');
    assert '.' !in t;
  }
}
