/**
 * The parts of Python's `str` that the modelled code relies on:
 * `strip`, `split`, `startswith`, `endswith`, `in`, `find`, `join`,
 * `upper`/`lower` (ASCII letters), `int`/`str` on naturals and
 * code-point ordering of strings.
 */
module Text {
  import opened Wrappers

  /** `c.isspace()` in Python. */
  predicate IsSpace(c: char)
  {
    c == ' ' || ('\t' <= c <= '\r') || ('\U{1C}' <= c <= '\U{1F}')
    || c == '\U{85}' || c == '\U{A0}' || c == '\U{1680}'
    || ('\U{2000}' <= c <= '\U{200A}') || c == '\U{2028}' || c == '\U{2029}'
    || c == '\U{202F}' || c == '\U{205F}' || c == '\U{3000}'
  }

  predicate StartsWith(s: string, p: string)
  {
    |p| <= |s| && s[..|p|] == p
  }

  lemma StartsWithAppend(x: string, y: string, t: string)
    requires StartsWith(x, t)
    ensures StartsWith(x + y, t)
  {
    assert (x + y)[..|t|] == x[..|t|];
  }

  lemma StartsWithPrefix(p: string, y: string)
    ensures StartsWith(p + y, p)
  {
    assert (p + y)[..|p|] == p;
  }

  predicate EndsWith(s: string, p: string)
  {
    |p| <= |s| && s[|s| - |p|..] == p
  }

  /** `p` occurs in `s` starting at index `i`. */
  predicate OccursAt(s: string, p: string, i: int)
  {
    0 <= i && i + |p| <= |s| && s[i..i + |p|] == p
  }

  /** `p in s` in Python: `p` occurs in `s` at some position. */
  predicate Contains(s: string, p: string)
  {
    exists i | 0 <= i <= |s| - |p| :: OccursAt(s, p, i)
  }

  predicate ContainsAny(s: string, ps: seq<string>)
  {
    exists k | 0 <= k < |ps| :: Contains(s, ps[k])
  }

  /** `s[:n]` in Python for a non-negative `n`. */
  function Take(s: string, n: nat): (r: string)
    ensures |r| == if |s| < n then |s| else n
    ensures StartsWith(s, r)
  {
    if |s| <= n then s else s[..n]
  }

  /** `s.lstrip()`. */
  function TrimStart(s: string): (r: string)
    ensures |r| <= |s| && r == s[|s| - |r|..]
    ensures r == [] || !IsSpace(r[0])
    ensures forall i :: 0 <= i < |s| - |r| ==> IsSpace(s[i])
  {
    if |s| > 0 && IsSpace(s[0]) then TrimStart(s[1..]) else s
  }

  /** A string of white space only is empty once left-stripped. */
  lemma {:induction false} TrimStartBlank(s: string)
    requires forall i :: 0 <= i < |s| ==> IsSpace(s[i])
    ensures TrimStart(s) == []
  {
    if |s| > 0 {
      assert forall i :: 0 <= i < |s[1..]| ==> s[1..][i] == s[i + 1];
      TrimStartBlank(s[1..]);
    }
  }

  /** `s.rstrip()`. */
  function TrimEnd(s: string): (r: string)
    ensures |r| <= |s| && r == s[..|r|]
    ensures r == [] || !IsSpace(r[|r| - 1])
    ensures forall i :: |r| <= i < |s| ==> IsSpace(s[i])
  {
    if |s| > 0 && IsSpace(s[|s| - 1]) then TrimEnd(s[..|s| - 1]) else s
  }

  /** `s.strip()`: `s` without its leading and trailing whitespace. */
  function Strip(s: string): (r: string)
    ensures |r| <= |s|
    ensures r == [] || (!IsSpace(r[0]) && !IsSpace(r[|r| - 1]))
    ensures Contains(s, r)
  {
    var t := TrimStart(s);
    var r := TrimEnd(t);
    assert s[|s| - |t|..][..|r|] == s[|s| - |t|..|s| - |t| + |r|];
    assert OccursAt(s, r, |s| - |t|);
    r
  }

  predicate IsStripped(s: string)
  {
    s == [] || (!IsSpace(s[0]) && !IsSpace(s[|s| - 1]))
  }

  /** A text with no whitespace at either end is its own strip. */
  lemma StripStripped(x: string)
    requires IsStripped(x)
    ensures Strip(x) == x
  {
    if x != [] {
      assert TrimStart(x) == x;
      assert TrimEnd(x) == x;
    }
  }

  /** End of the run of non-space characters that starts at `i`. */
  function TokenEnd(s: string, i: nat): (j: nat)
    requires i <= |s|
    ensures i <= j <= |s|
    ensures forall k :: i <= k < j ==> !IsSpace(s[k])
    ensures j == |s| || IsSpace(s[j])
    decreases |s| - i
  {
    if i == |s| || IsSpace(s[i]) then i else TokenEnd(s, i + 1)
  }

  /** `s.split()`: the maximal runs of non-whitespace characters. */
  function Words(s: string): (r: seq<string>)
    ensures forall k :: 0 <= k < |r| ==> r[k] != []
    decreases |s|
  {
    var t := TrimStart(s);
    if t == [] then []
    else
      var j := TokenEnd(t, 0);
      assert j > 0 by {
        assert !IsSpace(t[0]);
      }
      var rest := t[j..];
      assert |rest| < |s|;
      [t[..j]] + Words(rest)
  }

  predicate NoSpace(w: string)
  {
    forall i :: 0 <= i < |w| ==> !IsSpace(w[i])
  }

  /** No word of `s.split()` holds a whitespace character. */
  lemma {:induction false} WordsHaveNoSpace(s: string)
    ensures forall k :: 0 <= k < |Words(s)| ==> NoSpace(Words(s)[k])
    decreases |s|
  {
    var t := TrimStart(s);
    if t != [] {
      var j := TokenEnd(t, 0);
      assert j > 0 by {
        assert !IsSpace(t[0]);
      }
      var rest := Words(t[j..]);
      WordsHaveNoSpace(t[j..]);
      assert Words(s) == [t[..j]] + rest;
      assert NoSpace(t[..j]) by {
        forall i | 0 <= i < j
          ensures !IsSpace(t[..j][i])
        {
          assert t[..j][i] == t[i];
        }
      }
      forall k | 0 <= k < |Words(s)|
        ensures NoSpace(Words(s)[k])
      {
        if k > 0 {
          assert Words(s)[k] == rest[k - 1];
        }
      }
    }
  }

  lemma {:induction false} TokenEndAt(s: string, i: nat, j: nat)
    requires i <= j <= |s|
    requires forall k :: i <= k < j ==> !IsSpace(s[k])
    requires j == |s| || IsSpace(s[j])
    ensures TokenEnd(s, i) == j
    decreases j - i
  {
    if i < j {
      TokenEndAt(s, i + 1, j);
    }
  }

  lemma TrimStartSpace(rest: string)
    ensures TrimStart(" " + rest) == TrimStart(rest)
  {
    assert (" " + rest)[1..] == rest;
  }

  /** A word followed by a space and more text is the first word of the text. */
  lemma WordsCons(w: string, rest: string)
    requires w != [] && NoSpace(w)
    ensures Words(w + " " + rest) == [w] + Words(rest)
  {
    var s := w + " " + rest;
    assert TrimStart(s) == s;
    TokenEndAt(s, 0, |w|);
    assert s[..|w|] == w && s[|w|..] == " " + rest;
    TrimStartSpace(rest);
  }

  /** A word alone is its only word. */
  lemma WordsSingle(w: string)
    requires w != [] && NoSpace(w)
    ensures Words(w) == [w]
  {
    assert TrimStart(w) == w;
    TokenEndAt(w, 0, |w|);
    assert w[..|w|] == w && w[|w|..] == [];
    assert TrimStart([]) == [];
  }

  lemma WordsOfSpacedCons(w: string, rest: seq<string>)
    requires w != [] && NoSpace(w) && rest != [] && Words(Join(" ", rest)) == rest
    ensures Words(Join(" ", [w] + rest)) == [w] + rest
  {
    JoinCons(" ", w, rest);
    WordsCons(w, Join(" ", rest));
  }

  /** `" ".join(ws).split() == ws` for words without spaces. */
  lemma {:induction false} WordsOfSpaced(ws: seq<string>)
    requires forall k :: 0 <= k < |ws| ==> ws[k] != [] && NoSpace(ws[k])
    ensures Words(Join(" ", ws)) == ws
  {
    if |ws| == 1 {
      WordsSingle(ws[0]);
    } else if |ws| > 1 {
      var rest := ws[1..];
      assert forall k :: 0 <= k < |rest| ==> rest[k] == ws[k + 1];
      WordsOfSpaced(rest);
      WordsOfSpacedCons(ws[0], rest);
      assert ws == [ws[0]] + rest;
    }
  }

  /** A text holding a non-space character has at least one word. */
  lemma WordsNonEmpty(s: string, i: nat)
    requires i < |s| && !IsSpace(s[i])
    ensures Words(s) != []
  {
    var t := TrimStart(s);
    assert t != [];
  }

  /** `s.find(p, i)` in Python, as an option: the first occurrence at or after `i`. */
  function FindFrom(s: string, p: string, i: nat): (r: Option<nat>)
    requires i <= |s|
    ensures r.Some? ==> i <= r.value && OccursAt(s, p, r.value)
    ensures r.Some? ==> forall k :: i <= k < r.value ==> !OccursAt(s, p, k)
    ensures r.None? ==> forall k :: i <= k <= |s| - |p| ==> !OccursAt(s, p, k)
    decreases |s| - i
  {
    if i + |p| > |s| then None
    else if s[i..i + |p|] == p then Some(i)
    else FindFrom(s, p, i + 1)
  }

  function Find(s: string, p: string): (r: Option<nat>)
    ensures r.Some? <==> Contains(s, p)
    ensures r.Some? ==> OccursAt(s, p, r.value)
    ensures r.Some? ==> forall k :: 0 <= k < r.value ==> !OccursAt(s, p, k)
  {
    FindFrom(s, p, 0)
  }

  /** With no occurrence of `p` in `s[i..]`, `s.find(p, i)` finds nothing. */
  lemma {:induction false} FindFromAbsent(s: string, p: string, i: nat)
    requires i <= |s| && !Contains(s[i..], p)
    ensures FindFrom(s, p, i) == None
    decreases |s| - i
  {
    if i + |p| <= |s| {
      assert s[i..][0..|p|] == s[i..i + |p|];
      assert !OccursAt(s[i..], p, 0);
      var t := s[i + 1..];
      forall j | 0 <= j <= |t| - |p|
        ensures !OccursAt(t, p, j)
      {
        assert t[j..j + |p|] == s[i..][j + 1..j + 1 + |p|];
        assert !OccursAt(s[i..], p, j + 1);
      }
      FindFromAbsent(s, p, i + 1);
    }
  }

  /** A pattern one of whose characters does not occur in `s` is not in `s`. */
  lemma MissingChar(s: string, p: string, j: nat)
    requires j < |p| && p[j] !in s
    ensures !Contains(s, p)
  {
  }

  /** `s.split(sep)` in Python, for a non-empty separator. */
  function SplitOn(s: string, sep: string): (r: seq<string>)
    requires sep != []
    ensures |r| >= 1
    decreases |s|
  {
    match Find(s, sep)
    case None => [s]
    case Some(i) => [s[..i]] + SplitOn(s[i + |sep|..], sep)
  }

  /** `s.split(sep, n)` in Python: at most `n` splits, the rest kept whole. */
  function SplitMax(s: string, sep: string, n: nat): (r: seq<string>)
    requires sep != []
    ensures 1 <= |r| <= n + 1
    decreases n
  {
    if n == 0 then [s]
    else match Find(s, sep)
      case None => [s]
      case Some(i) => [s[..i]] + SplitMax(s[i + |sep|..], sep, n - 1)
  }

  /** `sep.join(xs)` in Python. */
  function Join(sep: string, xs: seq<string>): (r: string)
  {
    if |xs| == 0 then ""
    else if |xs| == 1 then xs[0]
    else Join(sep, xs[..|xs| - 1]) + sep + xs[|xs| - 1]
  }

  /** Joining the two halves of a list with `sep` between them joins the whole list. */
  lemma {:induction false} JoinSplitAt(sep: string, xs: seq<string>, k: nat)
    requires 0 < k < |xs|
    ensures Join(sep, xs[..k]) + sep + Join(sep, xs[k..]) == Join(sep, xs)
    decreases |xs|
  {
    if k == |xs| - 1 {
      assert xs[k..] == [xs[k]];
      assert xs[..|xs| - 1] == xs[..k];
    } else {
      var ys := xs[..|xs| - 1];
      JoinSplitAt(sep, ys, k);
      assert ys[..k] == xs[..k];
      assert ys[k..] == xs[k..|xs| - 1];
      assert xs[k..][..|xs[k..]| - 1] == ys[k..];
      assert xs[k..][|xs[k..]| - 1] == xs[|xs| - 1];
    }
  }

  /** Splitting on a separator and joining with it again gives back the text. */
  lemma {:induction false} JoinSplitOn(s: string, sep: string)
    requires sep != []
    ensures Join(sep, SplitOn(s, sep)) == s
    decreases |s|
  {
    var f := Find(s, sep);
    if f.Some? {
      var i := f.value;
      var rest := s[i + |sep|..];
      var tail := SplitOn(rest, sep);
      calc {
        Join(sep, SplitOn(s, sep));
        { assert SplitOn(s, sep) == [s[..i]] + tail; }
        Join(sep, [s[..i]] + tail);
        { JoinCons(sep, s[..i], tail); }
        s[..i] + sep + Join(sep, tail);
        { JoinSplitOn(rest, sep); }
        s[..i] + sep + rest;
        { AroundOccurrence(s, sep, i); }
        s;
      }
    }
  }

  lemma AroundOccurrence(s: string, p: string, i: nat)
    requires OccursAt(s, p, i)
    ensures s == s[..i] + p + s[i + |p|..]
  {
    var j := i + |p|;
    assert s[..i] + s[i..j] == s[..j];
    assert s[..j] + s[j..] == s;
  }

  lemma JoinCons(sep: string, x: string, ys: seq<string>)
    requires ys != []
    ensures Join(sep, [x] + ys) == x + sep + Join(sep, ys)
  {
    var xs := [x] + ys;
    JoinSplitAt(sep, xs, 1);
    assert xs[..1] == [x];
    assert xs[1..] == ys;
  }

  /** A substring of a substring of `a` is a substring of `a`. */
  lemma ContainsTransitive(a: string, b: string, c: string)
    requires Contains(a, b) && Contains(b, c)
    ensures Contains(a, c)
  {
    var i :| 0 <= i <= |a| - |b| && OccursAt(a, b, i);
    var j :| 0 <= j <= |b| - |c| && OccursAt(b, c, j);
    assert b == a[i..i + |b|];
    forall k | 0 <= k < |c| ensures a[i + j + k] == c[k] {
      assert c[k] == b[j + k] == a[i + j + k];
    }
    assert a[i + j..i + j + |c|] == c;
    assert OccursAt(a, c, i + j);
  }

  /** Every piece of a joined list occurs in the joined text. */
  lemma {:induction false} JoinContainsEach(sep: string, xs: seq<string>, i: nat)
    requires i < |xs|
    ensures Contains(Join(sep, xs), xs[i])
    decreases |xs|
  {
    var j := Join(sep, xs);
    if |xs| == 1 {
      assert OccursAt(j, xs[i], 0);
    } else {
      var init := Join(sep, xs[..|xs| - 1]);
      assert j == init + sep + xs[|xs| - 1];
      if i == |xs| - 1 {
        assert j[|init + sep|..] == xs[i];
        assert OccursAt(j, xs[i], |init + sep|);
      } else {
        JoinContainsEach(sep, xs[..|xs| - 1], i);
        assert j[..|init|] == init;
        assert Contains(j, init) by { assert OccursAt(j, init, 0); }
        ContainsTransitive(j, init, xs[i]);
      }
    }
  }

  function UpperChar(c: char): char
  {
    if 'a' <= c <= 'z' then (c as int - 32) as char else c
  }

  function LowerChar(c: char): char
  {
    if 'A' <= c <= 'Z' then (c as int + 32) as char else c
  }

  /** `s.upper()` on ASCII letters. */
  function Upper(s: string): (r: string)
    ensures |r| == |s| && forall i :: 0 <= i < |s| ==> r[i] == UpperChar(s[i])
  {
    seq(|s|, i requires 0 <= i < |s| => UpperChar(s[i]))
  }

  /** `s.lower()` on ASCII letters. */
  function Lower(s: string): (r: string)
    ensures |r| == |s| && forall i :: 0 <= i < |s| ==> r[i] == LowerChar(s[i])
  {
    seq(|s|, i requires 0 <= i < |s| => LowerChar(s[i]))
  }

  /** Lower-casing keeps every occurrence, lower-cased. */
  lemma LowerContains(s: string, p: string)
    requires Contains(s, p)
    ensures Contains(Lower(s), Lower(p))
  {
    var i :| 0 <= i <= |s| - |p| && OccursAt(s, p, i);
    assert Lower(s)[i..i + |p|] == Lower(p);
    assert OccursAt(Lower(s), Lower(p), i);
  }

  lemma LowerAppend(a: string, b: string)
    ensures Lower(a + b) == Lower(a) + Lower(b)
  {
  }

  lemma LowerIdempotent(s: string)
    ensures Lower(Lower(s)) == Lower(s)
  {
  }

  lemma LowerOfUpper(s: string)
    ensures Lower(Upper(s)) == Lower(s)
  {
    forall i | 0 <= i < |s|
      ensures Lower(Upper(s))[i] == Lower(s)[i]
    {
      var c := s[i];
      assert LowerChar(UpperChar(c)) == LowerChar(c);
    }
  }

  predicate IsDigit(c: char)
  {
    '0' <= c <= '9'
  }

  /** `s.isdigit()` on ASCII digits: non-empty and all digits. */
  predicate IsDigits(s: string)
  {
    |s| > 0 && forall i :: 0 <= i < |s| ==> IsDigit(s[i])
  }

  function DigitChar(d: nat): (c: char)
    requires d < 10
    ensures IsDigit(c)
  {
    ('0' as int + d) as char
  }

  /** `str(n)` for a natural number: its decimal digits. */
  function NatToString(n: nat): (r: string)
    ensures IsDigits(r)
  {
    if n < 10 then [DigitChar(n)] else NatToString(n / 10) + [DigitChar(n % 10)]
  }

  /** `str(i)` for an integer. */
  function IntToString(i: int): string
  {
    if i < 0 then "-" + NatToString(-i) else NatToString(i)
  }

  function DigitValue(c: char): nat
    requires IsDigit(c)
  {
    c as int - '0' as int
  }

  /** `int(s)` for a string of decimal digits. */
  function ParseNat(s: string): nat
    requires forall i :: 0 <= i < |s| ==> IsDigit(s[i])
  {
    if s == [] then 0 else 10 * ParseNat(s[..|s| - 1]) + DigitValue(s[|s| - 1])
  }

  /** `int(str(n)) == n`: decimal printing and parsing are inverse. */
  lemma {:induction false} ParseNatToString(n: nat)
    ensures ParseNat(NatToString(n)) == n
  {
    if n >= 10 {
      ParseNatToString(n / 10);
      var s := NatToString(n / 10) + [DigitChar(n % 10)];
      assert s[..|s| - 1] == NatToString(n / 10);
    }
  }

  /** `int(s)` on an optional sign and decimal digits, whitespace around them allowed;
      `None` where Python raises `ValueError`. */
  function PyInt(s: string): (r: Option<int>)
    ensures r.Some? ==> Strip(s) != []
  {
    var t := Strip(s);
    if |t| > 0 && (t[0] == '+' || t[0] == '-') && IsDigits(t[1..]) then
      var m: int := ParseNat(t[1..]);
      Some(if t[0] == '-' then -m else m)
    else if IsDigits(t) then Some(ParseNat(t))
    else None
  }

  /** `int(str(n)) == n` through `PyInt`. */
  lemma PyIntOfNat(n: nat)
    ensures PyInt(NatToString(n)) == Some(n)
  {
    var s := NatToString(n);
    assert IsDigit(s[0]) && IsDigit(s[|s| - 1]);
    StripStripped(s);
    ParseNatToString(n);
  }

  /** Python's `<` on strings: code-point lexicographic order. */
  predicate LexLess(a: string, b: string)
  {
    if |a| == 0 then |b| > 0
    else if |b| == 0 then false
    else if a[0] != b[0] then a[0] < b[0]
    else LexLess(a[1..], b[1..])
  }

  predicate LexLe(a: string, b: string)
  {
    a == b || LexLess(a, b)
  }

  lemma {:induction false} LexLessIrreflexive(a: string)
    ensures !LexLess(a, a)
  {
    if |a| > 0 {
      LexLessIrreflexive(a[1..]);
    }
  }

  lemma {:induction false} LexLessTransitive(a: string, b: string, c: string)
    requires LexLess(a, b) && LexLess(b, c)
    ensures LexLess(a, c)
  {
    if |a| > 0 && |b| > 0 && |c| > 0 && a[0] == b[0] && b[0] == c[0] {
      LexLessTransitive(a[1..], b[1..], c[1..]);
    }
  }

  lemma {:induction false} LexLessTotal(a: string, b: string)
    ensures a == b || LexLess(a, b) || LexLess(b, a)
  {
    if |a| > 0 && |b| > 0 && a[0] == b[0] {
      LexLessTotal(a[1..], b[1..]);
      if a[1..] == b[1..] {
        assert a == [a[0]] + a[1..] && b == [b[0]] + b[1..];
      }
    }
  }

  lemma {:induction false} LexLessAsymmetric(a: string, b: string)
    requires LexLess(a, b)
    ensures !LexLess(b, a)
  {
    if |a| > 0 && |b| > 0 && a[0] == b[0] {
      LexLessAsymmetric(a[1..], b[1..]);
    }
  }

  /** Strings of one length keep their order whatever follows them. */
  lemma {:induction false} LexLessExtend(a: string, b: string, q: string, r: string)
    requires |a| == |b| && LexLess(a, b)
    ensures LexLess(a + q, b + r)
  {
    if a[0] == b[0] {
      assert (a + q)[1..] == a[1..] + q && (b + r)[1..] == b[1..] + r;
      LexLessExtend(a[1..], b[1..], q, r);
    }
  }
}
