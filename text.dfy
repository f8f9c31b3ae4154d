/**
 * String primitives the dialogue engine relies on: ASCII case mapping
 * (Python's `str.lower` and `str.capitalize`), substring containment
 * (`needle in hay`), whitespace tokenisation (`str.split()`), stripping
 * (`str.strip()`) and decimal integer parsing (`int(s)`).
 */
module Text {
  import opened Wrappers

  /** Python's `str.isspace` on the ASCII range: space, \t \n \v \f \r and the separators \x1c-\x1f. */
  predicate IsSpace(c: char) {
    c == ' ' || ('\t' <= c <= '\r') || ('\U{1C}' <= c <= '\U{1F}')
  }

  predicate IsDigit(c: char) {
    '0' <= c <= '9'
  }

  function LowerChar(c: char): char {
    if 'A' <= c <= 'Z' then (c as int + 32) as char else c
  }

  function UpperChar(c: char): char {
    if 'a' <= c <= 'z' then (c as int - 32) as char else c
  }

  /** `s.lower()` */
  function Lower(s: string): string {
    seq(|s|, i requires 0 <= i < |s| => LowerChar(s[i]))
  }

  /** `s.capitalize()`: first character upper-cased, the rest lower-cased. */
  function Capitalize(s: string): string {
    if s == [] then [] else [UpperChar(s[0])] + Lower(s[1..])
  }

  // ---------------------------------------------------------------------------
  // Substring containment
  // ---------------------------------------------------------------------------

  /** `needle` occurs in `hay` starting at position `i`. */
  predicate OccursAt(hay: string, needle: string, i: nat) {
    i + |needle| <= |hay| && hay[i..i + |needle|] == needle
  }

  /** Python's `needle in hay` on strings: scans the start positions left to right. */
  predicate Contains(hay: string, needle: string)
    decreases |hay|
  {
    if |needle| > |hay| then false
    else if hay[..|needle|] == needle then true
    else Contains(hay[1..], needle)
  }

  /** The scan agrees with the positional definition of a substring, in both directions. */
  lemma {:induction false} ContainsIff(hay: string, needle: string)
    ensures Contains(hay, needle) <==> exists i: nat :: OccursAt(hay, needle, i)
    decreases |hay|
  {
    if |needle| > |hay| {
      forall i: nat ensures !OccursAt(hay, needle, i) { }
    } else if hay[..|needle|] == needle {
      assert OccursAt(hay, needle, 0);
    } else {
      ContainsIff(hay[1..], needle);
      if exists i: nat :: OccursAt(hay[1..], needle, i) {
        var i: nat :| OccursAt(hay[1..], needle, i);
        assert hay[i + 1..i + 1 + |needle|] == hay[1..][i..i + |needle|];
        assert OccursAt(hay, needle, i + 1);
      }
      if exists i: nat :: OccursAt(hay, needle, i) {
        var i: nat :| OccursAt(hay, needle, i);
        assert i != 0;
        assert hay[1..][i - 1..i - 1 + |needle|] == hay[i..i + |needle|];
        assert OccursAt(hay[1..], needle, i - 1);
      }
    }
  }

  /** `any(w in text for w in words)` */
  predicate ContainsAny(text: string, words: seq<string>) {
    exists k :: 0 <= k < |words| && Contains(text, words[k])
  }

  // ---------------------------------------------------------------------------
  // Whitespace tokenisation
  // ---------------------------------------------------------------------------

  /** Length of the leading run of non-whitespace characters. */
  function TokenLength(s: string): (n: nat)
    ensures n <= |s|
    ensures forall i :: 0 <= i < n ==> !IsSpace(s[i])
    ensures n < |s| ==> IsSpace(s[n])
  {
    if s == [] || IsSpace(s[0]) then 0 else 1 + TokenLength(s[1..])
  }

  /** `s.split()`: the maximal runs of non-whitespace characters, in order. */
  function Words(s: string): (r: seq<string>)
    ensures forall w :: w in r ==> |w| > 0 && forall i :: 0 <= i < |w| ==> !IsSpace(w[i])
    decreases |s|
  {
    if s == [] then []
    else if IsSpace(s[0]) then Words(s[1..])
    else
      var n := TokenLength(s);
      [s[..n]] + Words(s[n..])
  }

  /**
   * `w` is a maximal run of non-whitespace characters of `s` starting at `i`:
   * non-empty, whitespace-free, and bounded by whitespace or the ends of `s`.
   */
  predicate RunAt(s: string, w: string, i: nat) {
    && OccursAt(s, w, i)
    && |w| > 0
    && (forall j :: 0 <= j < |w| ==> !IsSpace(w[j]))
    && (i == 0 || IsSpace(s[i - 1]))
    && (i + |w| == |s| || IsSpace(s[i + |w|]))
  }

  /** The tokens of `s.split()` are exactly the maximal non-whitespace runs of `s`. */
  lemma WordsAreRuns(s: string, w: string)
    ensures w in Words(s) <==> exists i: nat :: RunAt(s, w, i)
  {
    if w in Words(s) {
      var i := WordPosition(s, w);
    }
    if exists i: nat :: RunAt(s, w, i) {
      var i: nat :| RunAt(s, w, i);
      RunIsWord(s, w, i);
    }
  }

  /** Where a token of `s.split()` sits in `s`: a maximal non-whitespace run. */
  lemma {:induction false} WordPosition(s: string, w: string) returns (i: nat)
    requires w in Words(s)
    ensures RunAt(s, w, i)
    decreases |s|, 1
  {
    if IsSpace(s[0]) {
      var j := WordPosition(s[1..], w);
      RunAfter(s, 1, w, j);
      i := j + 1;
    } else {
      i := TokenWordPosition(s, w);
    }
  }

  /** `WordPosition` when `s` starts with its first token. */
  lemma {:induction false} TokenWordPosition(s: string, w: string) returns (i: nat)
    requires |s| > 0 && !IsSpace(s[0]) && w in Words(s)
    ensures RunAt(s, w, i)
    decreases |s|, 0
  {
    var n := TokenLength(s);
    assert Words(s) == [s[..n]] + Words(s[n..]);
    if w == s[..n] {
      FirstRun(s);
      i := 0;
    } else {
      var j := WordPosition(s[n..], w);
      RunNotAtStart(s[n..], w, j);
      RunAfter(s, n, w, j);
      i := j + n;
    }
  }

  /** A run of a string that starts with whitespace does not start at 0. */
  lemma RunNotAtStart(t: string, w: string, j: nat)
    requires RunAt(t, w, j) && IsSpace(t[0])
    ensures j > 0
  {
    assert t[j..j + |w|][0] == t[j];
  }

  /** Every maximal non-whitespace run of `s` is a token of `s.split()`. */
  lemma {:induction false} RunIsWord(s: string, w: string, i: nat)
    requires RunAt(s, w, i)
    ensures w in Words(s)
    decreases |s|
  {
    assert s[i] == w[0];
    if IsSpace(s[0]) {
      RunBefore(s, 1, w, i);
      RunIsWord(s[1..], w, i - 1);
    } else {
      var n := TokenLength(s);
      if i == 0 {
        assert forall j :: 0 <= j < |w| ==> !IsSpace(s[j]) by {
          forall j | 0 <= j < |w| ensures s[j] == w[j] { assert s[..|w|][j] == s[j]; }
        }
        assert n == |w|;
        assert s[..n] == w;
      } else {
        assert i > n;
        RunBefore(s, n, w, i);
        RunIsWord(s[n..], w, i - n);
        assert Words(s) == [s[..n]] + Words(s[n..]);
      }
    }
  }

  /** The leading token of a string that starts with a non-whitespace character is a run at 0. */
  lemma FirstRun(s: string)
    requires |s| > 0 && !IsSpace(s[0])
    ensures RunAt(s, s[..TokenLength(s)], 0)
  {
    var n := TokenLength(s);
    forall j | 0 <= j < n ensures s[..n][j] == s[j] { }
  }

  /** A run of a suffix `s[k..]` is a run of `s` when whitespace precedes it. */
  lemma RunAfter(s: string, k: nat, w: string, j: nat)
    requires 0 < k <= |s| && RunAt(s[k..], w, j)
    requires j > 0 || IsSpace(s[k - 1])
    ensures RunAt(s, w, j + k)
  {
    var t := s[k..];
    assert t[j..j + |w|] == s[j + k..j + k + |w|];
    if j > 0 {
      assert s[j + k - 1] == t[j - 1];
    }
    if j + k + |w| < |s| {
      assert s[j + k + |w|] == t[j + |w|];
    }
  }

  /** A run of `s` lying at or after position `k` is a run of the suffix `s[k..]`. */
  lemma RunBefore(s: string, k: nat, w: string, i: nat)
    requires 0 < k <= i && RunAt(s, w, i)
    ensures RunAt(s[k..], w, i - k)
  {
    var t := s[k..];
    assert t[i - k..i - k + |w|] == s[i..i + |w|];
    if i > k {
      assert t[i - k - 1] == s[i - 1];
    }
    if i + |w| < |s| {
      assert t[i - k + |w|] == s[i + |w|];
    }
  }

  lemma {:induction false} TokenLengthAll(s: string)
    requires forall i :: 0 <= i < |s| ==> !IsSpace(s[i])
    ensures TokenLength(s) == |s|
    decreases |s|
  {
    if s != [] {
      TokenLengthAll(s[1..]);
    }
  }

  /** A non-empty string without whitespace splits into itself alone. */
  lemma SingleToken(s: string)
    requires |s| > 0 && forall i :: 0 <= i < |s| ==> !IsSpace(s[i])
    ensures Words(s) == [s]
  {
    TokenLengthAll(s);
    assert !IsSpace(s[0]);
    assert s[..|s|] == s && s[|s|..] == [];
    assert Words(s) == [s[..|s|]] + Words(s[|s|..]);
  }

  /** Every token of `s.split()` is a substring of `s`. */
  lemma WordsOccur(s: string, w: string)
    requires w in Words(s)
    ensures Contains(s, w)
  {
    var i := WordPosition(s, w);
    ContainsIff(s, w);
  }

  // ---------------------------------------------------------------------------
  // Stripping and integer parsing
  // ---------------------------------------------------------------------------

  function StripLeading(s: string): string
    decreases |s|
  {
    if s != [] && IsSpace(s[0]) then StripLeading(s[1..]) else s
  }

  function StripTrailing(s: string): string
    decreases |s|
  {
    if s != [] && IsSpace(s[|s| - 1]) then StripTrailing(s[..|s| - 1]) else s
  }

  /** `s.strip()` */
  function Strip(s: string): string {
    StripTrailing(StripLeading(s))
  }

  predicate AllDigits(s: string) {
    |s| > 0 && forall i :: 0 <= i < |s| ==> IsDigit(s[i])
  }

  /** The value of a string of decimal digits, most significant first. */
  function DigitsValue(ds: string): nat
    requires forall i :: 0 <= i < |ds| ==> IsDigit(ds[i])
  {
    if ds == [] then 0
    else
      assert IsDigit(ds[|ds| - 1]);
      10 * DigitsValue(ds[..|ds| - 1]) + (ds[|ds| - 1] as int - '0' as int)
  }

  /** `int(s)` for the ASCII forms: surrounding whitespace, an optional sign, one or more digits. */
  function ParseInt(s: string): Option<int> {
    var t := Strip(s);
    if |t| > 0 && (t[0] == '-' || t[0] == '+') then
      if AllDigits(t[1..]) then
        var v: int := DigitsValue(t[1..]);
        Some(if t[0] == '-' then -v else v)
      else None
    else if AllDigits(t) then Some(DigitsValue(t))
    else None
  }

  function DigitChar(d: nat): char
    requires d < 10
  {
    ('0' as int + d) as char
  }

  /** `str(n)` for a natural number. */
  function Decimal(n: nat): (r: string)
    ensures AllDigits(r)
  {
    if n < 10 then [DigitChar(n)] else Decimal(n / 10) + [DigitChar(n % 10)]
  }

  lemma {:induction false} DecimalValue(n: nat)
    ensures AllDigits(Decimal(n)) && DigitsValue(Decimal(n)) == n
  {
    if n >= 10 {
      DecimalValue(n / 10);
      var r := Decimal(n);
      assert r[..|r| - 1] == Decimal(n / 10);
    }
  }

  /** Parsing the decimal rendering of a natural number gives the number back. */
  lemma {:induction false} ParseDecimal(n: nat)
    ensures ParseInt(Decimal(n)) == Some(n)
  {
    DecimalValue(n);
    var r := Decimal(n);
    assert !IsSpace(r[0]) && !IsSpace(r[|r| - 1]);
    assert StripLeading(r) == r;
    assert StripTrailing(r) == r;
  }
}
