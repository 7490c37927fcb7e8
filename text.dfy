/** Strings, integers and booleans as the client turns them into text: the
    parts of Go's strings and strconv packages that the request builders and
    the retry policy use, each with the inverse that reads the text back. */
module Text {

  datatype Option<+T> = None | Some(value: T)

  /** Go's int64, the type of every paging argument. */
  newtype int64 = x: int | -0x8000_0000_0000_0000 <= x < 0x8000_0000_0000_0000

  predicate IsDigit(c: char) { '0' <= c <= '9' }

  predicate AllDigits(s: string) { forall i :: 0 <= i < |s| ==> IsDigit(s[i]) }

  function DigitValue(c: char): (d: nat)
    requires IsDigit(c)
    ensures d < 10
  {
    (c as int) - ('0' as int)
  }

  function DigitChar(d: nat): (c: char)
    requires d < 10
    ensures IsDigit(c) && DigitValue(c) == d
  {
    (('0' as int) + d) as char
  }

  /** The value of a string of decimal digits (the empty string reads as 0). */
  function DecimalValue(s: string): nat
    requires AllDigits(s)
  {
    if s == [] then 0 else DecimalValue(s[..|s| - 1]) * 10 + DigitValue(s[|s| - 1])
  }

  /** The shortest decimal text of a natural number: no leading zero, and it
      reads back as the number. */
  function NatToDecimal(n: nat): (s: string)
    ensures 0 < |s| && AllDigits(s)
    ensures 1 < |s| ==> s[0] != '0'
    ensures DecimalValue(s) == n
  {
    if n < 10 then [DigitChar(n)]
    else
      var init := NatToDecimal(n / 10);
      var s := init + [DigitChar(n % 10)];
      assert s[..|s| - 1] == init;
      s
  }

  /** strconv.FormatInt(n, 10): a minus sign for negative numbers, then the digits. */
  function FormatInt(n: int64): (s: string)
    ensures ParseDecimal(s) == Some(n as int)
    ensures ParseInt64(s) == Some(n)
    ensures 0 < |s| && (s[0] == '-' <==> n < 0)
  {
    if n < 0 then
      var digits := NatToDecimal(-(n as int));
      assert ("-" + digits)[1..] == digits;
      "-" + digits
    else NatToDecimal(n as int)
  }

  /** Reads a base-10 integer written as FormatInt writes it. */
  function ParseDecimal(s: string): Option<int>
  {
    if 1 < |s| && s[0] == '-' && AllDigits(s[1..]) then Some(-(DecimalValue(s[1..]) as int))
    else if 0 < |s| && AllDigits(s) then Some(DecimalValue(s))
    else None
  }

  /** Reads a base-10 integer that fits Go's int64. */
  function ParseInt64(s: string): Option<int64>
  {
    match ParseDecimal(s)
    case Some(n) =>
      if -0x8000_0000_0000_0000 <= n < 0x8000_0000_0000_0000 then Some(n as int64) else None
    case None => None
  }

  /** strconv.FormatBool: Go's lower-case spelling of each truth value. */
  function FormatBool(b: bool): (s: string)
    ensures s == (if b then "true" else "false")
    ensures ParseBool(s) == Some(b)
  {
    if b then "true" else "false"
  }

  /** strconv.ParseBool: the spellings Go accepts for each truth value. */
  function ParseBool(s: string): Option<bool>
  {
    if s in {"1", "t", "T", "TRUE", "true", "True"} then Some(true)
    else if s in {"0", "f", "F", "FALSE", "false", "False"} then Some(false)
    else None
  }

  /** strings.Join: the elements with sep between each adjacent pair. */
  function Join(xs: seq<string>, sep: string): (s: string)
    ensures |xs| == 1 ==> s == xs[0]
  {
    if |xs| == 0 then ""
    else if |xs| == 1 then xs[0]
    else xs[0] + sep + Join(xs[1..], sep)
  }

  /** strings.Split with a one-character separator: never empty, and joining
      the parts again restores the string. */
  function Split(s: string, sep: char): (parts: seq<string>)
    ensures 0 < |parts|
    ensures Join(parts, [sep]) == s
    decreases |s|
  {
    if |s| == 0 then [""]
    else
      var rest := Split(s[1..], sep);
      if s[0] == sep then
        assert [sep] + s[1..] == s;
        [""] + rest
      else
        var parts := [[s[0]] + rest[0]] + rest[1..];
        assert parts[1..] == rest[1..];
        assert [s[0]] + s[1..] == s;
        parts
  }

  /** Splitting text that holds no separator gives the text itself. */
  lemma {:induction false} SplitWithoutSeparator(s: string, sep: char)
    requires sep !in s
    ensures Split(s, sep) == [s]
    decreases |s|
  {
    if |s| > 0 {
      assert sep !in s[1..];
      SplitWithoutSeparator(s[1..], sep);
      assert [s[0]] + s[1..] == s;
    }
  }

  /** A first part without separators splits off whole. */
  lemma {:induction false} SplitAfterPart(x: string, sep: char, t: string)
    requires sep !in x
    ensures Split(x + [sep] + t, sep) == [x] + Split(t, sep)
    decreases |x|
  {
    var s := x + [sep] + t;
    if |x| == 0 {
      assert s[0] == sep && s[1..] == t;
    } else {
      assert s[1..] == x[1..] + [sep] + t;
      assert sep !in x[1..];
      SplitAfterPart(x[1..], sep, t);
      assert [x[0]] + x[1..] == x;
    }
  }

  /** Split is the inverse of Join for non-empty lists whose elements hold no
      separator: a comma-joined list query parameter reads back as the list. */
  lemma {:induction false} SplitJoin(xs: seq<string>, sep: char)
    requires 0 < |xs|
    requires forall i :: 0 <= i < |xs| ==> sep !in xs[i]
    ensures Split(Join(xs, [sep]), sep) == xs
    decreases |xs|
  {
    if |xs| == 1 {
      SplitWithoutSeparator(xs[0], sep);
    } else {
      SplitJoin(xs[1..], sep);
      SplitAfterPart(xs[0], sep, Join(xs[1..], [sep]));
      assert [xs[0]] + xs[1..] == xs;
    }
  }

  /** A list whose element holds a comma joins to the same text as another
      list: Join is not injective without the separator restriction. */
  lemma JoinNeedsSeparatorFreeElements()
    ensures Join(["a,b"], ",") == Join(["a", "b"], ",")
  {
  }

  predicate HasPrefix(s: string, p: string) { |p| <= |s| && s[..|p|] == p }

  predicate HasSuffix(s: string, p: string) { |p| <= |s| && s[|s| - |p|..] == p }

  /** pat occurs in s starting at index i. */
  predicate OccursAt(s: string, pat: string, i: int)
  {
    0 <= i <= |s| - |pat| && s[i..i + |pat|] == pat
  }

  /** strings.Contains: true exactly when pat occurs somewhere in s. */
  function Contains(s: string, pat: string): (b: bool)
    ensures b <==> exists i :: OccursAt(s, pat, i)
    decreases |s|
  {
    if |s| < |pat| then false
    else if s[..|pat|] == pat then
      assert OccursAt(s, pat, 0);
      true
    else
      var b := Contains(s[1..], pat);
      assert forall j :: OccursAt(s[1..], pat, j) ==> OccursAt(s, pat, j + 1) by {
        forall j | OccursAt(s[1..], pat, j) ensures OccursAt(s, pat, j + 1) {
          assert s[1..][j..j + |pat|] == s[j + 1..j + 1 + |pat|];
        }
      }
      assert forall i :: OccursAt(s, pat, i) ==> OccursAt(s[1..], pat, i - 1) by {
        forall i | OccursAt(s, pat, i) ensures OccursAt(s[1..], pat, i - 1) {
          assert i != 0;
          assert s[1..][i - 1..i - 1 + |pat|] == s[i..i + |pat|];
        }
      }
      b
  }

  /** strings.TrimSuffix(s, "/"): removes one trailing slash, if there is one. */
  function TrimTrailingSlash(s: string): (r: string)
    ensures r == s <==> !HasSuffix(s, "/")
    ensures r != s ==> s == r + "/"
  {
    if HasSuffix(s, "/") then s[..|s| - 1] else s
  }

  /** strings.TrimPrefix(s, "/"): removes one leading slash, if there is one. */
  function TrimLeadingSlash(s: string): (r: string)
    ensures r == s <==> !HasPrefix(s, "/")
    ensures r != s ==> s == "/" + r
  {
    if HasPrefix(s, "/") then s[1..] else s
  }

  /** Only one slash goes: the trimmed text still ends in a slash exactly
      when the original ended in two. */
  lemma TrimTrailingSlashOnce(s: string)
    ensures HasSuffix(TrimTrailingSlash(s), "/") <==> HasSuffix(s, "//")
  {
  }
}
