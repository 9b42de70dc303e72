/**
 * The pieces of Go's standard library that the collector relies on, stated over
 * Dafny strings: `strconv.ParseBool`, `strconv.ParseInt(s, 10, 64)`, decimal
 * formatting (`%d`, `%v` of a bool), `strings.Split`, `strings.Join`,
 * `strings.ReplaceAll(s, old, "")`, `strings.SplitN(s, sep, 2)` and `path.Base`.
 */
module Text {
  import opened Wrappers

  const MinInt64: int := -0x8000_0000_0000_0000
  const MaxInt64: int := 0x7FFF_FFFF_FFFF_FFFF

  /** Go's `int64`. */
  type int64 = x: int | -0x8000_0000_0000_0000 <= x <= 0x7FFF_FFFF_FFFF_FFFF

  type byte = b: int | 0 <= b < 256
  type Bytes = seq<byte>

  // ---------------------------------------------------------------------------
  // Maps
  // ---------------------------------------------------------------------------

  /** A Go `map[string]string` of labels or annotations; a nil map reads as empty. */
  type Tags = map<string, string>

  /**
   * `maps.Copy(dst, src)` as a value: every entry of `src` is written into `dst`,
   * so `src` wins for a key both hold and the other keys of `dst` stay.
   */
  function MapsCopy(dst: Tags, src: Tags): (m: Tags)
    ensures m.Keys == dst.Keys + src.Keys
    ensures forall k :: k in src ==> m[k] == src[k]
    ensures forall k :: k in dst && k !in src ==> m[k] == dst[k]
  {
    dst + src
  }

  // ---------------------------------------------------------------------------
  // Booleans
  // ---------------------------------------------------------------------------

  /** `strconv.ParseBool`: the twelve accepted spellings, anything else is a syntax error. */
  function ParseBool(s: string): Option<bool> {
    if s == "1" || s == "t" || s == "T" || s == "TRUE" || s == "true" || s == "True" then Some(true)
    else if s == "0" || s == "f" || s == "F" || s == "FALSE" || s == "false" || s == "False" then Some(false)
    else None
  }

  /** `fmt.Sprintf("%v", b)` and `strconv.FormatBool(b)`; `ParseBool` reads it back. */
  function FormatBool(b: bool): (s: string)
    ensures s == "true" || s == "false"
    ensures ParseBool(s) == Some(b)
  {
    if b then "true" else "false"
  }

  // ---------------------------------------------------------------------------
  // Decimal integers
  // ---------------------------------------------------------------------------

  predicate IsDigit(c: char) {
    '0' <= c <= '9'
  }

  predicate AllDigits(s: string) {
    forall i :: 0 <= i < |s| ==> IsDigit(s[i])
  }

  function DigitValue(c: char): (d: nat)
    requires IsDigit(c)
    ensures d < 10
  {
    (c as int) - ('0' as int)
  }

  function DigitChar(d: nat): (c: char)
    requires d < 10
    ensures IsDigit(c) && DigitValue(c) == d
  {
    ('0' as int + d) as char
  }

  /** The value of a string of decimal digits, most significant first; leading zeros allowed. */
  function DecimalValue(s: string): nat
    requires AllDigits(s)
    decreases |s|
  {
    if s == [] then 0 else 10 * DecimalValue(s[..|s| - 1]) + DigitValue(s[|s| - 1])
  }

  /** The shortest decimal spelling of `n`. */
  function NatToDecimal(n: nat): (s: string)
    ensures |s| >= 1 && AllDigits(s) && DecimalValue(s) == n
    ensures |s| > 1 ==> s[0] != '0'
    decreases n
  {
    if n < 10 then [DigitChar(n)]
    else
      var s := NatToDecimal(n / 10) + [DigitChar(n % 10)];
      assert s[..|s| - 1] == NatToDecimal(n / 10);
      s
  }

  /** `fmt.Sprintf("%d", n)` / `strconv.FormatInt(n, 10)`. */
  function FormatInt(n: int): (s: string)
    ensures |s| >= 1
    ensures n >= 0 ==> AllDigits(s) && DecimalValue(s) == n
    ensures n < 0 ==> s[0] == '-' && AllDigits(s[1..]) && DecimalValue(s[1..]) == -n
  {
    if n < 0 then "-" + NatToDecimal(-n) else NatToDecimal(n)
  }

  /**
   * `strconv.ParseInt(s, 10, 64)` without its error detail: an optional `+` or `-`,
   * then at least one decimal digit (no base prefix and no underscores, because the
   * base is given explicitly), and a value inside the 64-bit range.
   */
  function ParseInt64(s: string): Option<int64> {
    if s == "" then None
    else
      var negative := s[0] == '-';
      var digits := if s[0] == '+' || s[0] == '-' then s[1..] else s;
      if digits == "" || !AllDigits(digits) then None
      else
        var v: int := if negative then -(DecimalValue(digits) as int) else DecimalValue(digits);
        if MinInt64 <= v <= MaxInt64 then Some(v as int64) else None
  }

  /** Every 64-bit value survives printing in decimal and parsing back. */
  lemma ParseFormatInt64(n: int64)
    ensures ParseInt64(FormatInt(n)) == Some(n)
  {
    var s := FormatInt(n);
    if n < 0 {
      assert IsDigit(s[1..][0]);
    } else {
      assert IsDigit(s[0]);
    }
  }

  /** Any text that is not a plain optionally-signed run of digits is rejected. */
  lemma ParseInt64Rejects(s: string)
    requires s == "" || (s[0] != '+' && s[0] != '-' && !AllDigits(s))
    ensures ParseInt64(s) == None
  {
  }

  /**
   * Digits outside the 64-bit range are rejected, with or without a sign, and so are
   * a bare sign and a signed decimal fraction.
   */
  lemma ParseInt64OutOfRange(d: string)
    requires d != "" && AllDigits(d)
    ensures DecimalValue(d) > MaxInt64 ==> ParseInt64(d) == None && ParseInt64("+" + d) == None
    ensures DecimalValue(d) > -MinInt64 ==> ParseInt64("-" + d) == None
    ensures DecimalValue(d) == -MinInt64 ==> ParseInt64("-" + d) == Some(MinInt64 as int64)
    ensures ParseInt64("+") == None && ParseInt64("-") == None && ParseInt64("-1.5") == None
  {
    assert ("+" + d)[1..] == d && ("-" + d)[1..] == d;
    assert !IsDigit("-1.5"[1..][1]);
  }

  // ---------------------------------------------------------------------------
  // strings.Split / strings.Join with a one-character separator
  // ---------------------------------------------------------------------------

  function Count(s: string, c: char): nat
    decreases |s|
  {
    if s == "" then 0 else (if s[0] == c then 1 else 0) + Count(s[1..], c)
  }

  /**
   * `strings.Split(s, sep)`: the pieces between separators, no trimming; the empty
   * string gives one empty piece.
   */
  function Split(s: string, sep: char): (parts: seq<string>)
    ensures |parts| == Count(s, sep) + 1
    ensures forall i :: 0 <= i < |parts| ==> sep !in parts[i]
    decreases |s|
  {
    if s == "" then [""]
    else
      var rest := Split(s[1..], sep);
      if s[0] == sep then [""] + rest
      else [[s[0]] + rest[0]] + rest[1..]
  }

  /** `strings.Join(parts, sep)`. */
  function Join(parts: seq<string>, sep: char): string
    decreases |parts|
  {
    if parts == [] then ""
    else if |parts| == 1 then parts[0]
    else parts[0] + [sep] + Join(parts[1..], sep)
  }

  /** Joining the pieces with the separator gives back the text that was split. */
  lemma {:induction false} JoinSplit(s: string, sep: char)
    ensures Join(Split(s, sep), sep) == s
    decreases |s|
  {
    if s != "" {
      var rest := Split(s[1..], sep);
      JoinSplit(s[1..], sep);
      if s[0] == sep {
        assert Split(s, sep) == [""] + rest;
        assert ([""] + rest)[1..] == rest;
        assert s == [sep] + s[1..];
      } else {
        var parts := [[s[0]] + rest[0]] + rest[1..];
        assert Split(s, sep) == parts;
        if |rest| == 1 {
          assert Join(rest, sep) == rest[0];
          assert s == [s[0]] + s[1..];
        } else {
          assert parts[1..] == rest[1..];
          assert Join(rest, sep) == rest[0] + [sep] + Join(rest[1..], sep);
          assert s == [s[0]] + s[1..];
        }
      }
    }
  }

  lemma {:induction false} SplitNoSeparator(p: string, sep: char)
    requires sep !in p
    ensures Split(p, sep) == [p]
    decreases |p|
  {
    if p != "" {
      SplitNoSeparator(p[1..], sep);
      assert p == [p[0]] + p[1..];
    }
  }

  lemma {:induction false} SplitAfterSeparator(p: string, sep: char, t: string)
    requires sep !in p
    ensures Split(p + [sep] + t, sep) == [p] + Split(t, sep)
    decreases |p|
  {
    var s := p + [sep] + t;
    if p == "" {
      assert s[1..] == t;
    } else {
      assert s[1..] == p[1..] + [sep] + t;
      SplitAfterSeparator(p[1..], sep, t);
      assert p == [p[0]] + p[1..];
    }
  }

  /** Splitting a join of separator-free pieces gives back the pieces. */
  lemma {:induction false} SplitJoin(parts: seq<string>, sep: char)
    requires |parts| >= 1
    requires forall i :: 0 <= i < |parts| ==> sep !in parts[i]
    ensures Split(Join(parts, sep), sep) == parts
    decreases |parts|
  {
    if |parts| == 1 {
      SplitNoSeparator(parts[0], sep);
    } else {
      SplitJoin(parts[1..], sep);
      SplitAfterSeparator(parts[0], sep, Join(parts[1..], sep));
      assert parts == [parts[0]] + parts[1..];
    }
  }

  // ---------------------------------------------------------------------------
  // strings.ReplaceAll(s, pat, "")
  // ---------------------------------------------------------------------------

  predicate StartsWith(s: string, p: string) {
    |p| <= |s| && s[..|p|] == p
  }

  predicate ContainsAt(s: string, p: string, i: int) {
    0 <= i <= |s| - |p| && s[i..i + |p|] == p
  }

  predicate Contains(s: string, p: string) {
    exists i | 0 <= i <= |s| - |p| :: ContainsAt(s, p, i)
  }

  /**
   * `strings.ReplaceAll(s, pat, "")` for a non-empty `pat`: scanning left to right,
   * every occurrence that does not overlap an earlier removed one is dropped.
   */
  function RemoveAll(s: string, pat: string): (r: string)
    requires pat != ""
    ensures |r| <= |s|
    decreases |s|
  {
    if |s| < |pat| then s
    else if s[..|pat|] == pat then RemoveAll(s[|pat|..], pat)
    else [s[0]] + RemoveAll(s[1..], pat)
  }

  /** Text without an occurrence of the pattern is left as it is. */
  lemma {:induction false} RemoveAllWithoutOccurrence(s: string, pat: string)
    requires pat != ""
    requires !Contains(s, pat)
    ensures RemoveAll(s, pat) == s
    decreases |s|
  {
    if |s| >= |pat| {
      assert !ContainsAt(s, pat, 0);
      assert s[..|pat|] != pat;
      forall i | ContainsAt(s[1..], pat, i) ensures ContainsAt(s, pat, i + 1) {
        assert s[1..][i..i + |pat|] == s[i + 1..i + 1 + |pat|];
      }
      RemoveAllWithoutOccurrence(s[1..], pat);
      assert s == [s[0]] + s[1..];
    }
  }

  /** A stretch in which no occurrence of the pattern starts is copied as it is. */
  lemma {:induction false} RemoveAllKeepsPrefix(a: string, b: string, pat: string)
    requires pat != ""
    requires forall j :: 0 <= j < |a| ==> !StartsWith((a + b)[j..], pat)
    ensures RemoveAll(a + b, pat) == a + RemoveAll(b, pat)
    decreases |a|
  {
    if a != [] {
      var s := a + b;
      assert !StartsWith(s[0..], pat);
      assert s[0..] == s;
      forall j | 0 <= j < |a[1..]| ensures !StartsWith((a[1..] + b)[j..], pat) {
        assert (a[1..] + b)[j..] == s[j + 1..];
        assert !StartsWith(s[j + 1..], pat);
      }
      RemoveAllKeepsPrefix(a[1..], b, pat);
      assert a == [a[0]] + a[1..];
      if |s| >= |pat| {
        assert s[..|pat|] != pat;
        assert s[1..] == a[1..] + b;
        assert s[0] == a[0];
        assert RemoveAll(s, pat) == [s[0]] + RemoveAll(s[1..], pat);
        assert RemoveAll(s, pat) == [a[0]] + (a[1..] + RemoveAll(b, pat));
      } else {
        RemoveAllShort(b, pat);
        RemoveAllShort(s, pat);
      }
      assert [a[0]] + (a[1..] + RemoveAll(b, pat)) == a + RemoveAll(b, pat);
    } else {
      assert a + b == b;
    }
  }

  /** An occurrence at the front is dropped and the scan goes on after it. */
  lemma RemoveAllLeadingMatch(pat: string, rest: string)
    requires pat != ""
    ensures RemoveAll(pat + rest, pat) == RemoveAll(rest, pat)
  {
    assert (pat + rest)[..|pat|] == pat;
    assert (pat + rest)[|pat|..] == rest;
  }

  /** Text shorter than the pattern is left as it is. */
  lemma RemoveAllShort(s: string, pat: string)
    requires pat != "" && |s| < |pat|
    ensures RemoveAll(s, pat) == s
  {
  }

  // ---------------------------------------------------------------------------
  // strings.SplitN(s, sep, 2) with a one-character separator
  // ---------------------------------------------------------------------------

  /** The first index of `c` in `s`, or -1. */
  function IndexOf(s: string, c: char): (i: int)
    ensures -1 <= i < |s|
    ensures i >= 0 ==> s[i] == c && forall j :: 0 <= j < i ==> s[j] != c
    ensures i == -1 ==> c !in s
    decreases |s|
  {
    if s == "" then -1
    else if s[0] == c then 0
    else
      var j := IndexOf(s[1..], c);
      if j < 0 then -1 else j + 1
  }

  /**
   * `strings.SplitN(s, sep, 2)` read as "exactly two parts": the text before the
   * first separator and everything after it; `None` when there are fewer than two
   * parts, which happens exactly when the separator does not occur.
   */
  function SplitFirst(s: string, c: char): (r: Option<(string, string)>)
    ensures r.None? <==> c !in s
    ensures r.Some? ==> s == r.value.0 + [c] + r.value.1 && c !in r.value.0
    ensures r.Some? ==> r.value.0 == s[..IndexOf(s, c)]
  {
    var i := IndexOf(s, c);
    if i < 0 then None
    else
      assert s == s[..i] + [c] + s[i + 1..];
      Some((s[..i], s[i + 1..]))
  }

  /** The first separator is the split point, whatever follows it. */
  lemma SplitFirstAt(k: string, c: char, v: string)
    requires c !in k
    ensures SplitFirst(k + [c] + v, c) == Some((k, v))
  {
    var s := k + [c] + v;
    assert s[|k|] == c;
    assert forall j :: 0 <= j < |k| ==> s[j] == k[j] && s[j] != c;
    var i := IndexOf(s, c);
    assert i != -1;
    assert i <= |k|;
    assert i == |k|;
    var r := SplitFirst(s, c);
    var (k', v') := r.value;
    assert k' == (k + [c] + v)[..|k|];
    assert (k + [c] + v)[..|k|] == k;
    assert v' == (k + [c] + v)[|k| + 1..];
    assert (k + [c] + v)[|k| + 1..] == v;
  }

  // ---------------------------------------------------------------------------
  // path.Base
  // ---------------------------------------------------------------------------

  function TrimTrailingSlashes(s: string): (r: string)
    ensures |r| <= |s| && r == s[..|r|]
    ensures r == "" || r[|r| - 1] != '/'
    ensures forall j :: |r| <= j < |s| ==> s[j] == '/'
    decreases |s|
  {
    if s != "" && s[|s| - 1] == '/' then TrimTrailingSlashes(s[..|s| - 1]) else s
  }

  /** The last index of `c` in `s`, or -1. */
  function LastIndexOf(s: string, c: char): (i: int)
    ensures -1 <= i < |s|
    ensures i >= 0 ==> s[i] == c
    ensures forall j :: i < j < |s| ==> s[j] != c
    decreases |s|
  {
    if s == "" then -1
    else if s[|s| - 1] == c then |s| - 1
    else LastIndexOf(s[..|s| - 1], c)
  }

  /**
   * `path.Base`: the last slash-separated element after trailing slashes are
   * removed; "." for the empty path and "/" for a path of slashes only.
   */
  function PathBase(p: string): (r: string)
    ensures r != ""
    ensures r == "/" || '/' !in r
  {
    if p == "" then "."
    else
      var t := TrimTrailingSlashes(p);
      if t == "" then "/" else t[LastIndexOf(t, '/') + 1..]
  }

  /** A non-empty name without slashes is its own base. */
  lemma PathBaseOfName(n: string)
    requires n != "" && '/' !in n
    ensures PathBase(n) == n
  {
    assert n[|n| - 1] != '/';
    assert TrimTrailingSlashes(n) == n;
  }

  /** Directories in front of the last element are dropped. */
  lemma PathBaseDropsDirectories(d: string, n: string)
    requires n != "" && '/' !in n
    ensures PathBase(d + "/" + n) == n
  {
    var p := d + "/" + n;
    assert p[|p| - 1] == n[|n| - 1];
    assert TrimTrailingSlashes(p) == p;
    var i := LastIndexOf(p, '/');
    assert p[|d|] == '/';
    assert i == |d|;
    assert p[|d| + 1..] == n;
  }

  /** A trailing slash does not change the base of a non-empty path. */
  lemma PathBaseTrailingSlash(p: string)
    requires p != ""
    ensures PathBase(p + "/") == PathBase(p)
  {
    var q := p + "/";
    assert q[..|q| - 1] == p;
  }

  /** Taking the base twice gives the same as taking it once. */
  lemma PathBaseIdempotent(p: string)
    ensures PathBase(PathBase(p)) == PathBase(p)
  {
    var b := PathBase(p);
    if b == "/" {
      assert TrimTrailingSlashes("/"[..0]) == "";
    } else {
      PathBaseOfName(b);
    }
  }
}
