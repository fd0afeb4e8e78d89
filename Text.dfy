/**
 * The JavaScript string operations the core relies on, written out over
 * `seq<char>`: `toLowerCase`, `includes`, `trim`, `substring`, `split` and the
 * number parsing of `parseFloat` and `parseInt`, each in the simplified form
 * described beside it.
 */
module Text {
  import opened Wrappers

  // ---------------------------------------------------------------------------
  // toLowerCase
  // ---------------------------------------------------------------------------

  /** Lower-cases one character; only the ASCII letters A-Z change. */
  function LowerChar(c: char): (r: char)
    ensures !('A' <= r <= 'Z')
    ensures !('A' <= c <= 'Z') ==> r == c
  {
    if 'A' <= c <= 'Z' then (c as int - 'A' as int + 'a' as int) as char else c
  }

  /** `s.toLowerCase()` on ASCII text: same length, every letter lowered. */
  function Lower(s: string): (r: string)
    ensures |r| == |s|
    ensures forall i :: 0 <= i < |s| ==> r[i] == LowerChar(s[i])
  {
    seq(|s|, i requires 0 <= i < |s| => LowerChar(s[i]))
  }

  /** Text without upper-case ASCII letters is its own lower-case form. */
  lemma LowerOfLowerCase(s: string)
    requires forall i :: 0 <= i < |s| ==> !('A' <= s[i] <= 'Z')
    ensures Lower(s) == s
  {
  }

  // ---------------------------------------------------------------------------
  // includes
  // ---------------------------------------------------------------------------

  /** `t` occurs in `s` starting at position `i`. */
  predicate OccursAt(s: string, t: string, i: nat) {
    i + |t| <= |s| && s[i..i + |t|] == t
  }

  /** `s.includes(t)`: plain substring containment, no tokenisation. */
  predicate Contains(s: string, t: string) {
    exists i :: 0 <= i <= |s| - |t| && OccursAt(s, t, i)
  }

  /** Containment survives extending the text at its end. */
  lemma ContainsGrows(s: string, r: string, t: string)
    requires s <= r && Contains(s, t)
    ensures Contains(r, t)
  {
    var i :| 0 <= i <= |s| - |t| && OccursAt(s, t, i);
    assert r[i..i + |t|] == s[i..i + |t|];
    assert OccursAt(r, t, i);
  }

  /** A term that was just appended after a separator is contained. */
  lemma ContainsAppended(s: string, sep: string, t: string)
    ensures Contains(s + sep + t, t)
  {
    var r := s + sep + t;
    assert r[|s + sep|..|s + sep| + |t|] == t;
    assert OccursAt(r, t, |s + sep|);
  }

  /** A term whose first character appears nowhere it could start is not contained. */
  lemma NotContainedByFirst(s: string, t: string)
    requires |t| > 0 && forall i :: 0 <= i <= |s| - |t| ==> s[i] != t[0]
    ensures !Contains(s, t)
  {
    forall i | 0 <= i <= |s| - |t|
      ensures !OccursAt(s, t, i)
    {
      assert s[i..i + |t|][0] == s[i];
    }
  }

  /** Every text contains each of its prefixes. */
  lemma ContainsPrefix(s: string, t: string)
    requires t <= s
    ensures Contains(s, t)
  {
    assert s[0..|t|] == t;
    assert OccursAt(s, t, 0);
  }

  // ---------------------------------------------------------------------------
  // trim
  // ---------------------------------------------------------------------------

  /** The characters `String.prototype.trim` removes that this model knows about. */
  predicate IsSpace(c: char) {
    c == ' ' || c == '\t' || c == '\n' || c == '\r'
    || c as int == 0x0B || c as int == 0x0C || c as int == 0xA0 || c as int == 0xFEFF
  }

  /** Drops the leading white space. */
  function TrimStart(s: string): (r: string)
    ensures |r| <= |s| && r == s[|s| - |r|..]
    ensures forall i :: 0 <= i < |s| - |r| ==> IsSpace(s[i])
    ensures r != [] ==> !IsSpace(r[0])
  {
    if s != [] && IsSpace(s[0]) then TrimStart(s[1..]) else s
  }

  /** Drops the trailing white space. */
  function TrimEnd(s: string): (r: string)
    ensures |r| <= |s| && r == s[..|r|]
    ensures forall i :: |r| <= i < |s| ==> IsSpace(s[i])
    ensures r != [] ==> !IsSpace(r[|r| - 1])
  {
    if s != [] && IsSpace(s[|s| - 1]) then TrimEnd(s[..|s| - 1]) else s
  }

  /** Every character of `t` is white space. */
  predicate AllSpace(t: string) {
    forall k :: 0 <= k < |t| ==> IsSpace(t[k])
  }

  /** `r` sits in `s` with only white space before it and only white space after it. */
  predicate PaddedBySpace(s: string, r: string) {
    exists i :: 0 <= i <= |s| - |r| && OccursAt(s, r, i) && AllSpace(s[..i]) && AllSpace(s[i + |r|..])
  }

  /** The text between the leading and the trailing white space sits in `s` with only white space around it. */
  lemma TrimmedSlice(s: string, a: string, r: string)
    requires |a| <= |s| && a == s[|s| - |a|..] && forall k :: 0 <= k < |s| - |a| ==> IsSpace(s[k])
    requires |r| <= |a| && r == a[..|r|] && forall k :: |r| <= k < |a| ==> IsSpace(a[k])
    ensures PaddedBySpace(s, r)
  {
    var i := |s| - |a|;
    assert s[i..i + |r|] == a[..|r|];
    var before, after := s[..i], s[i + |r|..];
    forall k | 0 <= k < |after| ensures IsSpace(after[k]) {
      assert after[k] == a[|r| + k];
    }
    forall k | 0 <= k < |before| ensures IsSpace(before[k]) {
      assert before[k] == s[k];
    }
    assert OccursAt(s, r, i) && AllSpace(before) && AllSpace(after);
  }

  /**
   * `s.trim()`: the result neither starts nor ends with white space, and it
   * is empty exactly when `s` is all white space; `TrimPadded` shows that
   * only white space at the ends was removed.
   */
  function Trim(s: string): (r: string)
    ensures r != [] ==> !IsSpace(r[0]) && !IsSpace(r[|r| - 1])
    ensures r == [] <==> forall i :: 0 <= i < |s| ==> IsSpace(s[i])
  {
    var a := TrimStart(s);
    TrimEnd(a)
  }

  /** What `trim` removes is white space only, at the two ends. */
  lemma TrimPadded(s: string)
    ensures PaddedBySpace(s, Trim(s))
  {
    TrimmedSlice(s, TrimStart(s), Trim(s));
  }

  /** Trimming twice is trimming once. */
  lemma TrimIdempotent(s: string)
    ensures Trim(Trim(s)) == Trim(s)
  {
    var r := Trim(s);
    assert TrimStart(r) == r;
    assert TrimEnd(r) == r;
  }

  /** `k` blanks. */
  function Spaces(k: nat): (r: string)
    ensures |r| == k && forall i :: 0 <= i < k ==> r[i] == ' '
  {
    seq(k, _ => ' ')
  }

  /** `s` padded on the right with blanks to width `w`, as in a fixed-width column. */
  function PadRight(s: string, w: nat): string
    requires |s| <= w
  {
    s + Spaces(w - |s|)
  }

  lemma {:induction false} TrimEndOfPadding(s: string, k: nat)
    requires s != [] && !IsSpace(s[|s| - 1])
    ensures TrimEnd(s + Spaces(k)) == s
  {
    if k > 0 {
      var t := s + Spaces(k);
      assert t[|t| - 1] == ' ';
      assert t[..|t| - 1] == s + Spaces(k - 1);
      TrimEndOfPadding(s, k - 1);
    } else {
      assert s + Spaces(k) == s;
    }
  }

  /** A padded column holding a word with no white space at its ends trims back to the word. */
  lemma TrimPadRight(s: string, w: nat)
    requires |s| <= w && s != [] && !IsSpace(s[0]) && !IsSpace(s[|s| - 1])
    ensures Trim(PadRight(s, w)) == s
  {
    var t := PadRight(s, w);
    assert t[0] == s[0];
    assert TrimStart(t) == t;
    TrimEndOfPadding(s, w - |s|);
  }

  // ---------------------------------------------------------------------------
  // substring
  // ---------------------------------------------------------------------------

  /**
   * `s.substring(from, to)` for `from <= to`: both indices are clamped to the
   * length of `s`, so a short line yields a short or empty field.
   */
  function Substring(s: string, from: nat, to: nat): (r: string)
    requires from <= to
    ensures to <= |s| ==> r == s[from..to]
    ensures from >= |s| ==> r == []
    ensures from < |s| < to ==> r == s[from..]
    ensures |r| <= to - from
  {
    var a := if from < |s| then from else |s|;
    var b := if to < |s| then to else |s|;
    s[a..b]
  }

  // ---------------------------------------------------------------------------
  // split
  // ---------------------------------------------------------------------------

  /** Glues pieces back together with `sep` between neighbours: `parts.join(sep)`. */
  function Join(parts: seq<string>, sep: char): string
    requires |parts| >= 1
  {
    if |parts| == 1 then parts[0] else parts[0] + [sep] + Join(parts[1..], sep)
  }

  /**
   * `s.split(sep)`: the pieces between separators, in order; there is always
   * at least one piece, no piece holds the separator, and joining the pieces
   * gives `s` back.
   */
  function Split(s: string, sep: char): (r: seq<string>)
    ensures |r| >= 1
    ensures forall k :: 0 <= k < |r| ==> sep !in r[k]
    ensures Join(r, sep) == s
  {
    if s == [] then [""]
    else
      var rest := Split(s[1..], sep);
      if s[0] == sep then
        assert Join([""] + rest, sep) == [sep] + Join(rest, sep);
        [""] + rest
      else
        var r := [[s[0]] + rest[0]] + rest[1..];
        assert Join(r, sep) == [s[0]] + Join(rest, sep) by {
          if |rest| > 1 {
            assert r[1..] == rest[1..];
          }
        }
        r
  }

  /** Splitting a piece that holds no separator gives that piece alone. */
  lemma {:induction false} SplitOfPiece(x: string, sep: char)
    requires sep !in x
    ensures Split(x, sep) == [x]
  {
    if x != [] {
      assert sep !in x[1..];
      SplitOfPiece(x[1..], sep);
      assert [x[0]] + x[1..] == x;
    }
  }

  /** A piece, a separator and the rest split into the piece and the pieces of the rest. */
  lemma {:induction false} SplitAfterPiece(x: string, sep: char, y: string)
    requires sep !in x
    ensures Split(x + [sep] + y, sep) == [x] + Split(y, sep)
  {
    if x == [] {
      assert x + [sep] + y == [sep] + y;
      assert ([sep] + y)[1..] == y;
    } else {
      assert (x + [sep] + y)[1..] == x[1..] + [sep] + y;
      assert sep !in x[1..];
      SplitAfterPiece(x[1..], sep, y);
      assert [x[0]] + x[1..] == x;
    }
  }

  /** Joining pieces that hold no separator and splitting again is the identity. */
  lemma {:induction false} SplitOfJoin(parts: seq<string>, sep: char)
    requires |parts| >= 1
    requires forall k :: 0 <= k < |parts| ==> sep !in parts[k]
    ensures Split(Join(parts, sep), sep) == parts
  {
    if |parts| == 1 {
      SplitOfPiece(parts[0], sep);
    } else {
      SplitOfJoin(parts[1..], sep);
      SplitAfterPiece(parts[0], sep, Join(parts[1..], sep));
      assert [parts[0]] + parts[1..] == parts;
    }
  }

  // ---------------------------------------------------------------------------
  // parseFloat / parseInt
  // ---------------------------------------------------------------------------

  predicate IsDigit(c: char) {
    '0' <= c <= '9'
  }

  predicate AllDigits(s: string) {
    forall i :: 0 <= i < |s| ==> IsDigit(s[i])
  }

  function DigitValue(c: char): (d: nat)
    requires IsDigit(c)
    ensures d < 10
  {
    c as int - '0' as int
  }

  /** Length of the run of decimal digits at the front of `s`. */
  function DigitRun(s: string): (n: nat)
    ensures n <= |s|
    ensures AllDigits(s[..n])
    ensures n < |s| ==> !IsDigit(s[n])
  {
    if s != [] && IsDigit(s[0]) then
      var n := 1 + DigitRun(s[1..]);
      assert s[..n] == [s[0]] + s[1..][..n - 1];
      n
    else 0
  }

  /** A string of digits is one run of digits. */
  lemma DigitRunOfDigits(s: string)
    ensures AllDigits(s) ==> DigitRun(s) == |s| && s[..DigitRun(s)] == s
  {
  }

  /** The number a string of decimal digits denotes, most significant digit first. */
  function DigitsValue(ds: string): nat
    requires AllDigits(ds)
  {
    if ds == [] then 0 else DigitsValue(ds[..|ds| - 1]) * 10 + DigitValue(ds[|ds| - 1])
  }

  function Pow10(n: nat): (p: nat)
    ensures p >= 1
  {
    if n == 0 then 1 else 10 * Pow10(n - 1)
  }

  /** The sign of a leading `+` or `-`, and the text after it. */
  function SignAndBody(s: string): (bool, string) {
    if s != [] && (s[0] == '-' || s[0] == '+') then (s[0] == '-', s[1..]) else (false, s)
  }

  /**
   * `parseFloat` on already-trimmed text: an optional sign, decimal digits,
   * optionally a point and more digits, at least one digit in all; whatever
   * follows is ignored. `None` stands for `NaN`.
   */
  function ParseFloat(s: string): (r: Option<real>)
    ensures r.Some? ==> s != []
    ensures s != [] && AllDigits(s) ==> r == Some(DigitsValue(s) as real)
    ensures |s| >= 2 && s[0] == '-' && AllDigits(s[1..]) ==> r == Some(-(DigitsValue(s[1..]) as real))
  {
    var (negative, body) := SignAndBody(s);
    DigitRunOfDigits(body);
    var n := DigitRun(body);
    var rest := body[n..];
    var hasPoint := rest != [] && rest[0] == '.';
    var m := if hasPoint then DigitRun(rest[1..]) else 0;
    if n == 0 && m == 0 then None
    else
      var magnitude := DigitsValue(body[..n]) as real
        + (if hasPoint then DigitsValue(rest[1..][..m]) as real / Pow10(m) as real else 0.0);
      Some(if negative then -magnitude else magnitude)
  }

  /**
   * `parseInt` on already-trimmed text: an optional sign and at least one
   * decimal digit; whatever follows is ignored. `None` stands for `NaN`.
   */
  function ParseInt(s: string): (r: Option<int>)
    ensures r.Some? ==> s != []
    ensures s != [] && AllDigits(s) ==> r == Some(DigitsValue(s))
    ensures |s| >= 2 && s[0] == '-' && AllDigits(s[1..]) ==> r == Some(-(DigitsValue(s[1..]) as int))
  {
    var (negative, body) := SignAndBody(s);
    DigitRunOfDigits(body);
    var n := DigitRun(body);
    if n == 0 then None
    else
      var magnitude := DigitsValue(body[..n]);
      Some(if negative then -(magnitude as int) else magnitude)
  }

  /** The decimal numeral of `n`, without leading zeros. */
  function NatToString(n: nat): (s: string)
    ensures s != [] && AllDigits(s)
  {
    var d := [('0' as int + n % 10) as char];
    if n < 10 then d else NatToString(n / 10) + d
  }

  lemma {:induction false} DigitsValueOfNatToString(n: nat)
    ensures DigitsValue(NatToString(n)) == n
  {
    var s := NatToString(n);
    if n >= 10 {
      DigitsValueOfNatToString(n / 10);
      assert s[..|s| - 1] == NatToString(n / 10);
    }
  }

  /** Reading back the numeral of a natural number with `parseInt` gives the number. */
  lemma ParseIntOfNatToString(n: nat)
    ensures ParseInt(NatToString(n)) == Some(n)
  {
    var s := NatToString(n);
    assert SignAndBody(s) == (false, s);
    assert DigitRun(s) == |s|;
    assert s[..|s|] == s;
    DigitsValueOfNatToString(n);
  }

  /** Reading back the numeral of a natural number with `parseFloat` gives the number. */
  lemma ParseFloatOfNatToString(n: nat)
    ensures ParseFloat(NatToString(n)) == Some(n as real)
  {
    var s := NatToString(n);
    assert SignAndBody(s) == (false, s);
    assert DigitRun(s) == |s|;
    assert s[..|s|] == s;
    assert s[|s|..] == [];
    DigitsValueOfNatToString(n);
  }
}
