/**
 * String sanitisers used to build image asset paths: `normalizeName` (folder
 * names) and `safeNumberForFilename` (prices), plus the decimal rendering
 * JavaScript's `String(n)` gives an integer price.
 */
module Names {
  import opened Wrappers

  /** The characters JavaScript's `\s` class and `String.prototype.trim` treat as white space. */
  predicate IsSpace(c: char) {
    c == ' ' || c == '\t' || c == '\n' || c == '\r' || c == '\U{000B}' || c == '\U{000C}'
    || c == '\U{00A0}' || c == '\U{1680}' || ('\U{2000}' <= c <= '\U{200A}')
    || c == '\U{2028}' || c == '\U{2029}' || c == '\U{202F}' || c == '\U{205F}'
    || c == '\U{3000}' || c == '\U{FEFF}'
  }

  /** The characters `[A-Za-z0-9_-]` a folder name may keep. */
  predicate IsFolderChar(c: char) {
    ('a' <= c <= 'z') || ('A' <= c <= 'Z') || ('0' <= c <= '9') || c == '_' || c == '-'
  }

  predicate IsDigit(c: char) {
    '0' <= c <= '9'
  }

  /** The characters `[\d.]` a price in a file name may keep. */
  predicate IsNumberChar(c: char) {
    IsDigit(c) || c == '.'
  }

  predicate All(s: string, p: char -> bool) {
    forall i :: 0 <= i < |s| ==> p(s[i])
  }

  /** `s.replace(/[^…]/g, '')`: the characters of `s` that satisfy `keep`, in order. */
  function Keep(s: string, keep: char -> bool): (r: string)
    ensures All(r, keep)
    ensures |r| <= |s|
    ensures forall c :: c in r <==> c in s && keep(c)
  {
    if s == [] then []
    else if keep(s[0]) then [s[0]] + Keep(s[1..], keep)
    else Keep(s[1..], keep)
  }

  /** Leading white space removed: the longest suffix of `s` that does not start with a space. */
  function TrimStart(s: string): (r: string)
    ensures |r| <= |s| && r == s[|s| - |r|..]
    ensures r == [] || !IsSpace(r[0])
    ensures forall i :: 0 <= i < |s| - |r| ==> IsSpace(s[i])
  {
    if s != [] && IsSpace(s[0]) then TrimStart(s[1..]) else s
  }

  /** Trailing white space removed: the longest prefix of `s` that does not end with a space. */
  function TrimEnd(s: string): (r: string)
    ensures |r| <= |s| && r == s[..|r|]
    ensures r == [] || !IsSpace(r[|r| - 1])
    ensures forall i :: |r| <= i < |s| ==> IsSpace(s[i])
  {
    if s != [] && IsSpace(s[|s| - 1]) then TrimEnd(s[..|s| - 1]) else s
  }

  /**
   * `String.prototype.trim`: a slice of `s` that neither starts nor ends with
   * white space, with only white space on either side of it.
   */
  function Trim(s: string): (r: string)
    ensures r == [] || (!IsSpace(r[0]) && !IsSpace(r[|r| - 1]))
    ensures exists k :: 0 <= k <= |s| - |r| && r == s[k..][..|r|]
                        && (forall i :: 0 <= i < k ==> IsSpace(s[i]))
                        && (forall i :: k + |r| <= i < |s| ==> IsSpace(s[i]))
  {
    TrimSlice(s, TrimStart(s));
    TrimEnd(TrimStart(s))
  }

  /** `Trim` as a slice: everything before offset `|s| - |t|` and after the trimmed part is white space. */
  lemma TrimSlice(s: string, t: string)
    requires t == TrimStart(s)
    ensures var r, k := TrimEnd(t), |s| - |t|;
            && 0 <= k <= |s| - |r| && r == s[k..][..|r|]
            && (forall i :: 0 <= i < k ==> IsSpace(s[i]))
            && (forall i :: k + |r| <= i < |s| ==> IsSpace(s[i]))
  {
    var r, k := TrimEnd(t), |s| - |t|;
    assert t == s[k..];
    forall i | k + |r| <= i < |s| ensures IsSpace(s[i]) {
      assert s[i] == t[i - k];
    }
  }

  /** `s.replace(/\s+/g, '_')`: every maximal run of white space becomes one underscore. */
  function CollapseSpaces(s: string): (r: string)
    ensures forall i :: 0 <= i < |r| ==> !IsSpace(r[i])
    decreases |s|
  {
    if s == [] then []
    else if IsSpace(s[0]) then
      var rest := TrimStart(s[1..]);
      "_" + CollapseSpaces(rest)
    else [s[0]] + CollapseSpaces(s[1..])
  }

  /**
   * `normalizeName` (Catalog.jsx): an absent or empty name gives '', any other
   * name is trimmed, its white-space runs become '_' and every character
   * outside `[A-Za-z0-9_-]` is dropped.
   */
  function NormalizeName(name: Option<string>): (r: string)
    ensures All(r, IsFolderChar)
    ensures name.None? ==> r == ""
  {
    match name
    case None => ""
    case Some(s) => if s == "" then "" else Keep(CollapseSpaces(Trim(s)), IsFolderChar)
  }

  /** `safeNumberForFilename` (Catalog.jsx): '0' for null/undefined, else only digits and '.' kept. */
  function SafeNumberForFilename(text: Option<string>): (r: string)
    ensures All(r, IsNumberChar)
    ensures text.None? ==> r == "0"
  {
    match text
    case None => "0"
    case Some(s) => Keep(s, IsNumberChar)
  }

  function DigitChar(d: nat): (c: char)
    requires d < 10
    ensures IsDigit(c)
  {
    "0123456789"[d]
  }

  function DigitValue(c: char): nat
    requires IsDigit(c)
  {
    (c as int - '0' as int) as nat
  }

  /** The decimal digits of `n`, most significant first, without leading zeros. */
  function Digits(n: nat): (r: string)
    ensures |r| >= 1 && All(r, IsDigit)
    ensures |r| > 1 ==> r[0] != '0'
  {
    if n < 10 then [DigitChar(n)] else Digits(n / 10) + [DigitChar(n % 10)]
  }

  /** The number a string of decimal digits denotes. */
  function ValueOf(s: string): nat
    requires All(s, IsDigit)
  {
    if s == [] then 0 else 10 * ValueOf(s[..|s| - 1]) + DigitValue(s[|s| - 1])
  }

  /**
   * JavaScript's `String(n)` for an integer `n`: the digits of `n`, after a
   * minus sign when `n` is negative, which read back as `n`.
   */
  function DecimalString(n: int): (r: string)
    ensures n >= 0 ==> All(r, IsDigit) && ValueOf(r) == n
    ensures n < 0 ==> |r| >= 2 && r[0] == '-' && All(r[1..], IsDigit) && ValueOf(r[1..]) == -n
    ensures n >= 0 ==> r == Digits(n)
    ensures n < 0 ==> r == "-" + Digits(-n)
  {
    if n < 0 then
      ValueOfDigits(-n);
      Signed(Digits(-n));
      "-" + Digits(-n)
    else
      ValueOfDigits(n);
      Digits(n)
  }

  // ---------------------------------------------------------------- lemmas

  lemma Signed(d: string)
    ensures |"-" + d| == |d| + 1 && ("-" + d)[0] == '-' && ("-" + d)[1..] == d
  {
  }

  lemma {:induction false} KeepAll(s: string, keep: char -> bool)
    requires All(s, keep)
    ensures Keep(s, keep) == s
  {
    if s != [] {
      KeepAll(s[1..], keep);
    }
  }

  /** One character survives the regex deletion exactly when it is allowed. */
  lemma KeepChar(c: char, keep: char -> bool)
    ensures Keep([c], keep) == (if keep(c) then [c] else [])
  {
    assert [c][1..] == [];
  }

  /**
   * The regex deletion filters a joined string piecewise; with `KeepChar`
   * this fixes its result, order and repeats included.
   */
  lemma {:induction false} KeepConcat(a: string, b: string, keep: char -> bool)
    ensures Keep(a + b, keep) == Keep(a, keep) + Keep(b, keep)
  {
    if a == [] {
      assert a + b == b;
    } else {
      var ab := a + b;
      assert ab[0] == a[0];
      assert ab[1..] == a[1..] + b;
      KeepConcat(a[1..], b, keep);
      if keep(a[0]) {
        calc {
          Keep(ab, keep);
          [a[0]] + Keep(a[1..] + b, keep);
          [a[0]] + (Keep(a[1..], keep) + Keep(b, keep));
          ([a[0]] + Keep(a[1..], keep)) + Keep(b, keep);
        }
      }
    }
  }

  /** Leading white space followed by a non-space start is dropped entirely. */
  lemma {:induction false} TrimStartSpaces(w: string, b: string)
    requires forall i :: 0 <= i < |w| ==> IsSpace(w[i])
    requires b == [] || !IsSpace(b[0])
    ensures TrimStart(w + b) == b
  {
    if w == [] {
      assert w + b == b;
    } else {
      var wb := w + b;
      assert wb[0] == w[0];
      assert wb[1..] == w[1..] + b;
      TrimStartSpaces(w[1..], b);
    }
  }

  /** Trimming the front of a string that ends in a non-space leaves whatever follows it alone. */
  lemma {:induction false} TrimStartAppend(x: string, y: string)
    requires x != [] && !IsSpace(x[|x| - 1])
    ensures TrimStart(x + y) == TrimStart(x) + y
  {
    var xy := x + y;
    assert xy[0] == x[0];
    if IsSpace(x[0]) {
      var rest := x[1..];
      assert rest != [] && rest[|rest| - 1] == x[|x| - 1];
      assert xy[1..] == rest + y;
      TrimStartAppend(rest, y);
    }
  }

  /**
   * Each maximal white-space run becomes exactly one underscore: a run `w`
   * between a part that does not end in white space and one that does not
   * start with it is replaced by `_`, and both parts are collapsed on their own.
   */
  lemma CollapseRun(a: string, w: string, b: string)
    requires a == [] || !IsSpace(a[|a| - 1])
    requires |w| >= 1 && forall i :: 0 <= i < |w| ==> IsSpace(w[i])
    requires b == [] || !IsSpace(b[0])
    ensures CollapseSpaces(a + w + b) == CollapseSpaces(a) + "_" + CollapseSpaces(b)
  {
    CollapseSplit(a, w + b);
    CollapseLeadingRun(w, b);
    Assoc(a, w, b);
    Assoc(CollapseSpaces(a), "_", CollapseSpaces(b));
  }

  /**
   * Collapsing works piecewise across any boundary that is not inside a
   * white-space run: at either end, after a non-space character, or where a
   * run ends before a non-space character.
   */
  lemma CollapseAppend(a: string, y: string)
    requires a == [] || y == [] || !IsSpace(a[|a| - 1]) || !IsSpace(y[0])
    ensures CollapseSpaces(a + y) == CollapseSpaces(a) + CollapseSpaces(y)
  {
    if y == [] {
      assert a + y == a;
    } else if a == [] || !IsSpace(a[|a| - 1]) {
      CollapseSplit(a, y);
    } else {
      // `a` ends in a run `w` that `y` closes: `a` is `a' + w`
      var a' := TrimEnd(a);
      var w := a[|a'|..];
      assert a == a' + w && a + y == a' + w + y;
      assert |w| >= 1 && forall i :: 0 <= i < |w| ==> IsSpace(w[i]);
      CollapseRun(a', w, y);
      CollapseRun(a', w, []);
      assert a' + w + [] == a;
      assert CollapseSpaces([]) == [];
      Assoc(CollapseSpaces(a'), "_", CollapseSpaces(y));
      assert CollapseSpaces(a') + "_" + [] == CollapseSpaces(a') + "_";
    }
  }

  /** Collapsing works piecewise across a boundary that follows a non-space character (or is the start). */
  lemma {:induction false} CollapseSplit(a: string, y: string)
    requires a == [] || !IsSpace(a[|a| - 1])
    ensures CollapseSpaces(a + y) == CollapseSpaces(a) + CollapseSpaces(y)
    decreases |a|, 1
  {
    if a == [] {
      assert a + y == y;
    } else if IsSpace(a[0]) {
      CollapseSplitAfterSpace(a, y);
    } else {
      CollapseSplitAfterChar(a, y);
    }
  }

  /** `CollapseSplit` when `a` starts with white space. */
  lemma {:induction false} CollapseSplitAfterSpace(a: string, y: string)
    requires a != [] && IsSpace(a[0]) && !IsSpace(a[|a| - 1])
    ensures CollapseSpaces(a + y) == CollapseSpaces(a) + CollapseSpaces(y)
    decreases |a|, 0
  {
    var rest := a[1..];
    assert rest != [] && rest[|rest| - 1] == a[|a| - 1];
    TrimStartAppend(rest, y);
    var t := TrimStart(rest);
    assert t != [] && t[|t| - 1] == a[|a| - 1];
    CollapseSplit(t, y);
    CollapseSpaceStep(a, y);
  }

  /** `CollapseSplit` when `a` starts with a character that is kept as it is. */
  lemma {:induction false} CollapseSplitAfterChar(a: string, y: string)
    requires a != [] && !IsSpace(a[0]) && !IsSpace(a[|a| - 1])
    ensures CollapseSpaces(a + y) == CollapseSpaces(a) + CollapseSpaces(y)
    decreases |a|, 0
  {
    var rest := a[1..];
    assert rest == [] || rest[|rest| - 1] == a[|a| - 1];
    CollapseSplit(rest, y);
    CollapseCharStep(a, y);
  }

  lemma Assoc(p: string, q: string, r: string)
    ensures p + (q + r) == p + q + r
  {
  }

  /** A leading white-space run becomes one underscore before the rest. */
  lemma CollapseLeadingRun(w: string, b: string)
    requires |w| >= 1 && forall i :: 0 <= i < |w| ==> IsSpace(w[i])
    requires b == [] || !IsSpace(b[0])
    ensures CollapseSpaces(w + b) == "_" + CollapseSpaces(b)
  {
    var s := w + b;
    assert s[0] == w[0];
    assert s[1..] == w[1..] + b;
    TrimStartSpaces(w[1..], b);
  }

  /** Collapsing `a + y` for an `a` that starts with white space and ends without it. */
  lemma CollapseSpaceStep(a: string, y: string)
    requires |a| >= 2 && IsSpace(a[0]) && !IsSpace(a[|a| - 1])
    ensures TrimStart(a[1..]) != []
    ensures CollapseSpaces(a + y) == "_" + CollapseSpaces(TrimStart(a[1..]) + y)
    ensures CollapseSpaces(a) == "_" + CollapseSpaces(TrimStart(a[1..]))
  {
    var s := a + y;
    assert s[0] == a[0];
    assert s[1..] == a[1..] + y;
    TrimStartAppend(a[1..], y);
  }

  /** Collapsing `a + y` for an `a` that starts with a non-space character. */
  lemma CollapseCharStep(a: string, y: string)
    requires a != [] && !IsSpace(a[0])
    ensures CollapseSpaces(a + y) == [a[0]] + CollapseSpaces(a[1..] + y)
    ensures CollapseSpaces(a) == [a[0]] + CollapseSpaces(a[1..])
  {
    var s := a + y;
    assert s[0] == a[0];
    assert s[1..] == a[1..] + y;
  }

  lemma {:induction false} CollapseNoSpaces(s: string)
    requires forall i :: 0 <= i < |s| ==> !IsSpace(s[i])
    ensures CollapseSpaces(s) == s
  {
    if s != [] {
      CollapseNoSpaces(s[1..]);
    }
  }

  lemma FolderCharIsNotSpace(c: char)
    requires IsFolderChar(c)
    ensures !IsSpace(c)
  {
  }

  /** A string already made of folder characters is its own normal form. */
  lemma NormalizeFixesFolderNames(s: string)
    requires All(s, IsFolderChar)
    ensures NormalizeName(Some(s)) == s
  {
    if s != "" {
      forall i | 0 <= i < |s| ensures !IsSpace(s[i]) {
        FolderCharIsNotSpace(s[i]);
      }
      assert TrimStart(s) == s;
      assert TrimEnd(s) == s;
      CollapseNoSpaces(s);
      KeepAll(s, IsFolderChar);
    }
  }

  /** Normalising a folder name twice gives what normalising it once gives. */
  lemma NormalizeNameIdempotent(name: Option<string>)
    ensures NormalizeName(Some(NormalizeName(name))) == NormalizeName(name)
  {
    NormalizeFixesFolderNames(NormalizeName(name));
  }

  /** Sanitising a price text twice gives what sanitising it once gives. */
  lemma SafeNumberIdempotent(text: Option<string>)
    ensures SafeNumberForFilename(Some(SafeNumberForFilename(text))) == SafeNumberForFilename(text)
  {
    KeepAll(SafeNumberForFilename(text), IsNumberChar);
  }

  /** Decimal rendering and reading back are inverse. */
  lemma {:induction false} ValueOfDigits(n: nat)
    ensures ValueOf(Digits(n)) == n
  {
    if n >= 10 {
      ValueOfDigits(n / 10);
      var s := Digits(n);
      assert s[..|s| - 1] == Digits(n / 10);
    }
  }

  /** An integer price survives `safeNumberForFilename` as the digits of its magnitude (a minus sign is dropped). */
  lemma PriceText(n: int)
    ensures SafeNumberForFilename(Some(DecimalString(n))) == Digits(if n < 0 then -n else n)
  {
    if n < 0 {
      var d := Digits(-n);
      assert ("-" + d)[1..] == d;
      KeepAll(d, IsNumberChar);
    } else {
      KeepAll(Digits(n), IsNumberChar);
    }
  }

  /** Different non-negative prices render as different digit strings, so they name different files. */
  lemma DigitsInjective(m: nat, n: nat)
    requires Digits(m) == Digits(n)
    ensures m == n
  {
    ValueOfDigits(m);
    ValueOfDigits(n);
  }
}
