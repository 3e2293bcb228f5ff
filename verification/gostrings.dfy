/** Models of the Go standard-library helpers the logger relies on:
    strings.ToUpper, strconv.Itoa, strings.Split(s, ".")[0] and
    filepath.Base with the Unix separator '/'. */
module GoStrings {
  import opened Wrappers

  /** LATIN SMALL LETTER DOTLESS I and LATIN SMALL LETTER LONG S: the only
      non-ASCII letters whose upper case is an ASCII letter. */
  const DotlessI: char := '\U{131}'
  const LongS: char := '\U{17F}'

  /** unicode.ToUpper on ASCII and on the two letters above; any other
      character keeps its case. */
  function UpperChar(c: char): char {
    if 'a' <= c <= 'z' then (c as int - 32) as char
    else if c == DotlessI then 'I'
    else if c == LongS then 'S'
    else c
  }

  /** strings.ToUpper: every character is mapped on its own. */
  function Upper(s: string): (r: string)
    ensures |r| == |s|
    ensures forall i :: 0 <= i < |s| ==> r[i] == UpperChar(s[i])
  {
    if s == [] then [] else [UpperChar(s[0])] + Upper(s[1..])
  }

  /** Upper-casing distributes over concatenation. */
  lemma UpperAppend(a: string, b: string)
    ensures Upper(a + b) == Upper(a) + Upper(b)
  {
  }

  /** Upper-casing neither adds nor removes a character that sorts before
      'A', such as a control character. */
  lemma UpperKeeps(s: string, c: char)
    requires c < 'A'
    ensures c in Upper(s) <==> c in s
  {
    if c in Upper(s) {
      var i :| 0 <= i < |s| && Upper(s)[i] == c;
      assert s[i] == c;
    }
    if c in s {
      var i :| 0 <= i < |s| && s[i] == c;
      assert Upper(s)[i] == c;
    }
  }

  predicate IsDigit(c: char) {
    '0' <= c <= '9'
  }

  predicate AllDigits(s: string) {
    forall i :: 0 <= i < |s| ==> IsDigit(s[i])
  }

  function DigitChar(d: nat): (c: char)
    requires d < 10
    ensures IsDigit(c) && c as int - '0' as int == d
  {
    (d + '0' as int) as char
  }

  /** The decimal digits of n, most significant first, without leading zeros. */
  function Digits(n: nat): (r: string)
    ensures r != [] && AllDigits(r)
    ensures r[0] == '0' ==> n == 0
    decreases n
  {
    if n < 10 then [DigitChar(n)] else Digits(n / 10) + [DigitChar(n % 10)]
  }

  /** strconv.Itoa: an optional '-' followed by the digits of |n|. */
  function Itoa(n: int): (r: string)
    ensures r != []
    ensures forall i :: 0 <= i < |r| ==> IsDigit(r[i]) || (i == 0 && r[i] == '-')
    ensures r[0] == '-' <==> n < 0
    ensures n < 0 ==> |r| >= 2 && r[1] != '0'
    ensures r[0] == '0' ==> n == 0 && r == "0"
  {
    if n < 0 then "-" + Digits(-n) else Digits(n)
  }

  /** The value of a non-empty run of decimal digits. */
  function DigitsValue(s: string): nat
    requires AllDigits(s)
  {
    if s == [] then 0 else DigitsValue(s[..|s| - 1]) * 10 + (s[|s| - 1] as int - '0' as int)
  }

  /** A decimal integer: an optional sign and at least one digit. */
  function ParseDecimal(s: string): Option<int> {
    if s != [] && (s[0] == '-' || s[0] == '+') then
      var t := s[1..];
      if t != [] && AllDigits(t) then
        var v: int := DigitsValue(t);
        Some(if s[0] == '-' then -v else v)
      else None
    else if s != [] && AllDigits(s) then Some(DigitsValue(s))
    else None
  }

  lemma {:induction false} DigitsRoundTrip(n: nat)
    ensures DigitsValue(Digits(n)) == n
    decreases n
  {
    if n >= 10 {
      var s := Digits(n);
      assert s[..|s| - 1] == Digits(n / 10);
      DigitsRoundTrip(n / 10);
    }
  }

  /** Reading back what strconv.Itoa writes gives the number. */
  lemma ItoaRoundTrip(n: int)
    ensures ParseDecimal(Itoa(n)) == Some(n)
  {
    if n < 0 {
      assert Itoa(n)[1..] == Digits(-n);
      DigitsRoundTrip(-n);
    } else {
      DigitsRoundTrip(n);
    }
  }

  /** strings.Split(s, ".")[0]: the text before the first '.', or all of s. */
  function FirstField(s: string): (r: string)
    ensures r <= s
    ensures '.' !in r
    ensures r == s || s[|r|] == '.'
  {
    if s == [] || s[0] == '.' then [] else [s[0]] + FirstField(s[1..])
  }

  /** The first field of text whose first '.' follows a is a. */
  lemma FirstFieldOf(a: string, b: string)
    requires '.' !in a
    ensures FirstField(a + "." + b) == a
  {
    var s := a + "." + b;
    var r := FirstField(s);
    assert s[|a|] == '.';
    assert r == s[..|r|] && a == s[..|a|];
  }

  /** The index of the last occurrence of c in s. */
  function LastIndexOf(s: string, c: char): (r: Option<nat>)
    ensures r.None? ==> forall j :: 0 <= j < |s| ==> s[j] != c
    ensures r.Some? ==> r.value < |s| && s[r.value] == c && forall j :: r.value < j < |s| ==> s[j] != c
  {
    if s == [] then None
    else if s[|s| - 1] == c then Some(|s| - 1)
    else LastIndexOf(s[..|s| - 1], c)
  }

  /** The last c of a + [c] + b is the one between them when b has none. */
  lemma {:induction false} LastIndexOfSplit(a: string, c: char, b: string)
    requires c !in b
    ensures LastIndexOf(a + [c] + b, c) == Some(|a|)
    decreases |b|
  {
    if b != [] {
      var b', d := b[..|b| - 1], b[|b| - 1];
      assert b == b' + [d] && d in b;
      var s := a + [c] + b;
      assert s[..|s| - 1] == a + [c] + b';
      LastIndexOfSplit(a, c, b');
    }
  }

  /** The path without its trailing separators. */
  function StripTrailingSlashes(p: string): (q: string)
    ensures q <= p
    ensures q == [] || q[|q| - 1] != '/'
    ensures forall i :: |q| <= i < |p| ==> p[i] == '/'
  {
    if p != [] && p[|p| - 1] == '/' then StripTrailingSlashes(p[..|p| - 1]) else p
  }

  /** The text after the last separator of q (all of q if it has none). */
  function LastSegment(q: string): (r: string)
    ensures |r| <= |q| && r == q[|q| - |r|..]
    ensures '/' !in r
    ensures r == q || q[|q| - |r| - 1] == '/'
  {
    if q == [] || q[|q| - 1] == '/' then []
    else
      var r := LastSegment(q[..|q| - 1]) + [q[|q| - 1]];
      assert q == q[..|q| - 1] + [q[|q| - 1]];
      r
  }

  /** filepath.Base: "." for the empty path, "/" for a path made only of
      separators, otherwise the last element once trailing separators are
      removed. */
  function Base(path: string): (r: string)
    ensures r != []
    ensures r == "/" || '/' !in r
    ensures path == [] ==> r == "."
    ensures r == "/" <==> path != [] && forall i :: 0 <= i < |path| ==> path[i] == '/'
    ensures path != [] && path[|path| - 1] != '/' ==> r == LastSegment(path)
    ensures path != [] && r != "/" ==> r == LastSegment(StripTrailingSlashes(path))
  {
    if path == [] then "."
    else
      var q := StripTrailingSlashes(path);
      if q == [] then "/" else LastSegment(q)
  }

  /** One more non-separator character extends the last segment. */
  lemma LastSegmentSnoc(q: string, c: char)
    requires c != '/'
    ensures LastSegment(q + [c]) == LastSegment(q) + [c]
  {
    assert (q + [c])[..|q|] == q;
  }

  /** Appending separator-free text extends the last segment. */
  lemma {:induction false} LastSegmentAppend(x: string, y: string)
    requires '/' !in y
    ensures LastSegment(x + y) == LastSegment(x) + y
    decreases |y|
  {
    if y == [] {
      assert x + y == x;
    } else {
      var y', c := y[..|y| - 1], y[|y| - 1];
      assert y == y' + [c];
      assert x + y == (x + y') + [c];
      LastSegmentAppend(x, y');
      LastSegmentSnoc(x + y', c);
    }
  }

  /** The base of a path ending in separator-free text is the directory's
      last segment extended by that text. */
  lemma BaseOfAppend(x: string, y: string)
    requires y != [] && '/' !in y
    ensures Base(x + y) == LastSegment(x) + y
  {
    var p := x + y;
    assert p[|p| - 1] == y[|y| - 1];
    assert StripTrailingSlashes(p) == p;
    LastSegmentAppend(x, y);
  }

  /** The base of a name under a directory that ends in a separator (or of
      a bare name) is the name itself. */
  lemma BaseOfJoin(directory: string, name: string)
    requires name != [] && '/' !in name
    requires directory == [] || directory[|directory| - 1] == '/'
    ensures Base(directory + name) == name
  {
    BaseOfAppend(directory, name);
    assert LastSegment(directory) == [];
  }
}
