/** String helpers behind the two string expressions of the admin panel:
    JavaScript's `s.replace(/\s+/g, '_')` and the decimal rendering of a
    number inside a template literal. */
module Text {

  /** The characters JavaScript's `\s` class matches: the ECMAScript
      WhiteSpace and LineTerminator code points. */
  predicate IsWhitespace(c: char) {
    c == '\t' || c == '\n' || c == '\U{000B}' || c == '\U{000C}' || c == '\r' || c == ' ' ||
    c == '\U{00A0}' || c == '\U{1680}' || ('\U{2000}' <= c <= '\U{200A}') ||
    c == '\U{2028}' || c == '\U{2029}' || c == '\U{202F}' || c == '\U{205F}' ||
    c == '\U{3000}' || c == '\U{FEFF}'
  }

  predicate NoWhitespace(s: string) {
    forall i :: 0 <= i < |s| ==> !IsWhitespace(s[i])
  }

  predicate AllWhitespace(s: string) {
    forall i :: 0 <= i < |s| ==> IsWhitespace(s[i])
  }

  /** Drops the maximal run of whitespace at the front of `s`. */
  function DropWhitespace(s: string): (r: string)
    ensures |r| <= |s| && r == s[|s| - |r|..]
    ensures r == [] || !IsWhitespace(r[0])
    ensures AllWhitespace(s[..|s| - |r|])
  {
    if s != [] && IsWhitespace(s[0]) then DropWhitespace(s[1..]) else s
  }

  /** `s.replace(/\s+/g, '_')`: scanning left to right, each maximal run of
      whitespace becomes one underscore; every other character is kept. */
  function CollapseWhitespace(s: string): (r: string)
    ensures NoWhitespace(r)
    ensures |r| <= |s|
  {
    if s == [] then []
    else if IsWhitespace(s[0]) then "_" + CollapseWhitespace(DropWhitespace(s))
    else [s[0]] + CollapseWhitespace(s[1..])
  }

  /** A name without whitespace is left as it is. */
  lemma {:induction false} CollapseKeepsPlainName(s: string)
    requires NoWhitespace(s)
    ensures CollapseWhitespace(s) == s
  {
    if s != [] {
      CollapseKeepsPlainName(s[1..]);
    }
  }

  /** Collapsing twice is collapsing once. */
  lemma CollapseIdempotent(s: string)
    ensures CollapseWhitespace(CollapseWhitespace(s)) == CollapseWhitespace(s)
  {
    CollapseKeepsPlainName(CollapseWhitespace(s));
  }

  lemma {:induction false} DropWhitespaceOfRun(w: string, b: string)
    requires AllWhitespace(w)
    requires b == [] || !IsWhitespace(b[0])
    ensures DropWhitespace(w + b) == b
  {
    if w != [] {
      assert (w + b)[1..] == w[1..] + b;
      DropWhitespaceOfRun(w[1..], b);
    }
  }

  lemma {:induction false} DropWhitespaceAppend(x: string, y: string)
    requires x != [] && !IsWhitespace(x[|x| - 1])
    ensures DropWhitespace(x + y) == DropWhitespace(x) + y
  {
    if IsWhitespace(x[0]) {
      assert (x + y)[1..] == x[1..] + y;
      DropWhitespaceAppend(x[1..], y);
    }
  }

  predicate RunBoundaries(a: string, w: string, b: string) {
    && (a == [] || !IsWhitespace(a[|a| - 1]))
    && w != [] && AllWhitespace(w)
    && (b == [] || !IsWhitespace(b[0]))
  }

  /** One run of whitespace `w` between a part `a` that does not end in
      whitespace and a part `b` that does not start with it becomes exactly
      one underscore, and the two parts are collapsed independently. */
  lemma {:induction false} CollapseRun(a: string, w: string, b: string)
    requires RunBoundaries(a, w, b)
    ensures CollapseWhitespace(a + w + b) == CollapseWhitespace(a) + "_" + CollapseWhitespace(b)
    decreases |a|, 1
  {
    if a == [] {
      CollapseRunAtStart(w, b);
    } else if IsWhitespace(a[0]) {
      CollapseRunAfterLeadingRun(a, w, b);
    } else {
      CollapseRunAfterPlainChar(a, w, b);
    }
  }

  lemma CollapseRunAtStart(w: string, b: string)
    requires w != [] && AllWhitespace(w)
    requires b == [] || !IsWhitespace(b[0])
    ensures CollapseWhitespace([] + w + b) == CollapseWhitespace([]) + "_" + CollapseWhitespace(b)
  {
    EmptyPrefix(w, b);
    EmptyPrefix("_", CollapseWhitespace(b));
    assert (w + b)[0] == w[0];
    DropWhitespaceOfRun(w, b);
  }

  lemma EmptyPrefix<T>(x: seq<T>, y: seq<T>)
    ensures [] + x + y == x + y
  {
  }

  lemma DropWhitespaceKeepsLast(a: string)
    requires a != [] && IsWhitespace(a[0]) && !IsWhitespace(a[|a| - 1])
    ensures DropWhitespace(a) != [] && |DropWhitespace(a)| < |a|
    ensures DropWhitespace(a)[|DropWhitespace(a)| - 1] == a[|a| - 1]
  {
  }

  /** `a` starts with whitespace: its leading run is collapsed first. */
  lemma {:induction false} CollapseRunAfterLeadingRun(a: string, w: string, b: string)
    requires RunBoundaries(a, w, b) && a != [] && IsWhitespace(a[0])
    ensures CollapseWhitespace(a + w + b) == CollapseWhitespace(a) + "_" + CollapseWhitespace(b)
    decreases |a|, 0
  {
    DropWhitespaceKeepsLast(a);
    CollapseRun(DropWhitespace(a), w, b);
    var s := a + w + b;
    AppendAssoc3(a, w, b);
    AppendAssoc3(DropWhitespace(a), w, b);
    assert s[0] == a[0];
    DropWhitespaceAppend(a, w + b);
    var x, y := CollapseWhitespace(DropWhitespace(a)), CollapseWhitespace(b);
    AppendAssoc("_", x, "_", y);
  }

  /** `a` starts with a kept character, which stays in front. */
  lemma {:induction false} CollapseRunAfterPlainChar(a: string, w: string, b: string)
    requires RunBoundaries(a, w, b) && a != [] && !IsWhitespace(a[0])
    ensures CollapseWhitespace(a + w + b) == CollapseWhitespace(a) + "_" + CollapseWhitespace(b)
    decreases |a|, 0
  {
    CollapseRun(a[1..], w, b);
    var s := a + w + b;
    TailOfAppend(a, w, b);
    assert CollapseWhitespace(s) == [a[0]] + CollapseWhitespace(a[1..] + w + b);
    var x, y := CollapseWhitespace(a[1..]), CollapseWhitespace(b);
    AppendAssoc([a[0]], x, "_", y);
  }

  lemma TailOfAppend<T>(a: seq<T>, w: seq<T>, b: seq<T>)
    requires a != []
    ensures a + w + b != [] && (a + w + b)[0] == a[0] && (a + w + b)[1..] == a[1..] + w + b
  {
  }

  lemma AppendAssoc3<T>(p: seq<T>, q: seq<T>, r: seq<T>)
    ensures p + q + r == p + (q + r)
  {
  }

  lemma AppendAssoc<T>(p: seq<T>, q: seq<T>, r: seq<T>, t: seq<T>)
    ensures p + (q + r + t) == p + q + r + t
  {
  }

  predicate IsDigit(c: char) {
    '0' <= c <= '9'
  }

  predicate AllDigits(s: string) {
    forall i :: 0 <= i < |s| ==> IsDigit(s[i])
  }

  function DigitChar(d: nat): (c: char)
    requires d < 10
    ensures IsDigit(c)
  {
    ('0' as int + d) as char
  }

  function DigitValue(c: char): (d: nat)
    requires IsDigit(c)
    ensures d < 10 && DigitChar(d) == c
  {
    (c as int - '0' as int) as nat
  }

  /** The decimal text a template literal gives a non-negative integer. */
  function Decimal(n: nat): (s: string)
    ensures s != [] && AllDigits(s)
    ensures |s| > 1 ==> s[0] != '0'
  {
    if n < 10 then [DigitChar(n)] else Decimal(n / 10) + [DigitChar(n % 10)]
  }

  /** Reads a string of decimal digits back as a number. */
  function DecimalValue(s: string): nat
    requires AllDigits(s)
  {
    if s == [] then 0 else DecimalValue(s[..|s| - 1]) * 10 + DigitValue(s[|s| - 1])
  }

  lemma {:induction false} DecimalRoundTrip(n: nat)
    ensures DecimalValue(Decimal(n)) == n
  {
    if n >= 10 {
      var s := Decimal(n);
      assert s[..|s| - 1] == Decimal(n / 10);
      DecimalRoundTrip(n / 10);
    }
  }

  /** Distinct numbers render as distinct texts. */
  lemma DecimalInjective(m: nat, n: nat)
    requires Decimal(m) == Decimal(n)
    ensures m == n
  {
    DecimalRoundTrip(m);
    DecimalRoundTrip(n);
  }

  /** The number of leading digits of `s`. */
  function DigitSpan(s: string): (k: nat)
    ensures k <= |s| && AllDigits(s[..k])
    ensures k < |s| ==> !IsDigit(s[k])
  {
    if s == [] || !IsDigit(s[0]) then 0 else 1 + DigitSpan(s[1..])
  }
}
