/** String operations the scrapers borrow from Python's `str`: `lower`,
    `strip`/`rstrip`, the `in` substring test, `replace(pat, "")` and
    `split(sep)[0]`. Case is ASCII only; whitespace is Python's
    `str.isspace` set. */
module Text {

  datatype Option<+T> = None | Some(value: T)

  /** `c.lower()` for ASCII letters. */
  function LowerChar(c: char): char {
    if 'A' <= c <= 'Z' then (c as int + 32) as char else c
  }

  /** `s.lower()` */
  function Lower(s: string): (r: string)
    ensures |r| == |s|
    ensures forall i :: 0 <= i < |s| ==> r[i] == LowerChar(s[i])
  {
    seq(|s|, i requires 0 <= i < |s| => LowerChar(s[i]))
  }

  /** The characters `str.strip()` removes when called without arguments,
      which are also those `\s` matches: Python's `str.isspace`, including
      the separators U+001C..U+001F and the Unicode spaces. */
  predicate IsSpace(c: char) {
    '\t' <= c <= '\r' || '\U{001C}' <= c <= ' ' || c == '\U{0085}' || c == '\U{00A0}'
    || c == '\U{1680}' || '\U{2000}' <= c <= '\U{200A}' || c == '\U{2028}' || c == '\U{2029}'
    || c == '\U{202F}' || c == '\U{205F}' || c == '\U{3000}'
  }

  /** Python's `sub in s`. */
  predicate Contains(s: string, sub: string)
    decreases |s|
  {
    sub <= s || (|s| > 0 && Contains(s[1..], sub))
  }

  /** `any(k in s for k in keys)` */
  predicate ContainsAny(s: string, keys: seq<string>) {
    exists k :: 0 <= k < |keys| && Contains(s, keys[k])
  }

  /** `s.startswith(p)` */
  predicate StartsWith(s: string, p: string) {
    p <= s
  }

  /** Every slice of `s` occurs in `s`. */
  lemma {:induction false} SliceContained(s: string, i: nat, j: nat)
    requires i <= j <= |s|
    ensures Contains(s, s[i..j])
    decreases i
  {
    if i > 0 {
      SliceContained(s[1..], i - 1, j - 1);
      assert s[1..][i - 1..j - 1] == s[i..j];
    }
  }

  /** The character sets the scripts strip: the whitespace of `strip()`,
      the slash of `rstrip("/")` and the separators of `strip(" -–,")`. */
  datatype Chars = Whitespace | Slash | TitleJunk

  /** `c` belongs to the set `cs`. */
  predicate InChars(cs: Chars, c: char) {
    match cs
    case Whitespace => IsSpace(c)
    case Slash => c == '/'
    case TitleJunk => c == ' ' || c == '-' || c == '\U{2013}' || c == ','
  }

  /** Dropping the leading characters of the set `cs` (`lstrip`). */
  function TrimLeft(s: string, cs: Chars): (r: string)
    ensures |r| <= |s| && r == s[|s| - |r|..]
    ensures r == [] || !InChars(cs, r[0])
    ensures forall i :: 0 <= i < |s| - |r| ==> InChars(cs, s[i])
    decreases |s|
  {
    if |s| > 0 && InChars(cs, s[0]) then TrimLeft(s[1..], cs) else s
  }

  /** Dropping the trailing characters of the set `cs` (`rstrip`). */
  function TrimRight(s: string, cs: Chars): (r: string)
    ensures |r| <= |s| && r == s[..|r|]
    ensures r == [] || !InChars(cs, r[|r| - 1])
    ensures forall i :: |r| <= i < |s| ==> InChars(cs, s[i])
    decreases |s|
  {
    if |s| > 0 && InChars(cs, s[|s| - 1]) then TrimRight(s[..|s| - 1], cs) else s
  }

  /** `s.strip()` */
  function Strip(s: string): (r: string)
    ensures r == [] <==> forall i :: 0 <= i < |s| ==> IsSpace(s[i])
    ensures r != [] ==> !IsSpace(r[0]) && !IsSpace(r[|r| - 1])
    ensures Contains(s, r)
  {
    var left := TrimLeft(s, Whitespace);
    var r := TrimRight(left, Whitespace);
    StripEmptyAllSpace(s, left, r);
    AllSpaceStripEmpty(s, left, r);
    StripFirst(s, left, r);
    PrefixOfSuffix(s, |s| - |left|, r);
    r
  }

  /** `strip()` leaves nothing only when every character is whitespace. */
  lemma StripEmptyAllSpace(s: string, left: string, r: string)
    requires left == TrimLeft(s, Whitespace) && r == TrimRight(left, Whitespace)
    ensures r == [] ==> forall i :: 0 <= i < |s| ==> IsSpace(s[i])
  {
    var k := |s| - |left|;
    if r == [] {
      forall i | 0 <= i < |s| ensures IsSpace(s[i]) {
        if k <= i {
          assert s[i] == left[i - k];
          assert InChars(Whitespace, left[i - k]);
        } else {
          assert InChars(Whitespace, s[i]);
        }
      }
    }
  }

  /** An all-whitespace string strips to nothing. */
  lemma AllSpaceStripEmpty(s: string, left: string, r: string)
    requires left == TrimLeft(s, Whitespace) && r == TrimRight(left, Whitespace)
    ensures (forall i :: 0 <= i < |s| ==> IsSpace(s[i])) ==> r == []
  {
  }

  /** What `strip()` leaves begins with a non-space. */
  lemma StripFirst(s: string, left: string, r: string)
    requires left == TrimLeft(s, Whitespace) && r == TrimRight(left, Whitespace)
    ensures r != [] ==> !IsSpace(r[0])
  {
  }

  /** `s.strip()` is exactly the slice of `s` left between its leading and
      its trailing whitespace: with the non-space ends `Strip` ensures, this
      fixes the result. */
  lemma StripIsSlice(s: string)
    ensures exists i, j :: 0 <= i <= j <= |s| && Strip(s) == s[i..j]
                           && (forall k :: 0 <= k < i ==> IsSpace(s[k]))
                           && (forall k :: j <= k < |s| ==> IsSpace(s[k]))
  {
    var left := TrimLeft(s, Whitespace);
    var r := TrimRight(left, Whitespace);
    var i := |s| - |left|;
    PrefixOfSuffixSlice(s, i, left, r);
    ShiftCut(s, left, |r|, Whitespace);
    WhitespaceRun(s, 0, i);
    WhitespaceRun(s, i + |r|, |s|);
    assert Strip(s) == s[i..i + |r|];
  }

  /** Characters of the set `cs` at the end of the suffix `left` of `s`
      are characters of `s`. */
  lemma ShiftCut(s: string, left: string, n: nat, cs: Chars)
    requires |left| <= |s| && left == s[|s| - |left|..] && n <= |left|
    requires forall m :: n <= m < |left| ==> InChars(cs, left[m])
    ensures forall k :: |s| - |left| + n <= k < |s| ==> InChars(cs, s[k])
  {
    var i := |s| - |left|;
    forall k | i + n <= k < |s| ensures InChars(cs, s[k]) {
      assert s[k] == left[k - i];
    }
  }

  /** A run of the `Whitespace` set is a run of `IsSpace` characters. */
  lemma WhitespaceRun(s: string, a: nat, b: nat)
    requires forall k :: a <= k < b && k < |s| ==> InChars(Whitespace, s[k])
    ensures forall k :: a <= k < b && k < |s| ==> IsSpace(s[k])
  {
  }

  /** A prefix of the suffix of `s` from `i` is the slice of `s` from `i`. */
  lemma PrefixOfSuffixSlice(s: string, i: nat, left: string, r: string)
    requires i <= |s| && left == s[i..] && r <= left
    ensures r == s[i..i + |r|]
  {
  }

  /** A prefix of a suffix of `s` occurs in `s`. */
  lemma {:induction false} PrefixOfSuffix(s: string, k: nat, x: string)
    requires k <= |s| && x <= s[k..]
    ensures Contains(s, x)
    decreases k
  {
    if k > 0 {
      assert s[1..][k - 1..] == s[k..];
      PrefixOfSuffix(s[1..], k - 1, x);
    }
  }

  /** Without leading whitespace, `strip()` only cuts trailing whitespace. */
  lemma StripTrailing(s: string)
    requires s == [] || !IsSpace(s[0])
    ensures Strip(s) == s[..|Strip(s)|]
    ensures forall i :: |Strip(s)| <= i < |s| ==> IsSpace(s[i])
  {
    assert TrimLeft(s, Whitespace) == s;
    assert forall i :: |Strip(s)| <= i < |s| ==> InChars(Whitespace, s[i]);
  }

  /** A leading whitespace character makes no difference to `strip()`. */
  lemma StripLeadingSpace(c: char, s: string)
    requires IsSpace(c)
    ensures Strip([c] + s) == Strip(s)
  {
    assert ([c] + s)[1..] == s;
    assert TrimLeft([c] + s, Whitespace) == TrimLeft(s, Whitespace);
  }

  /** A string that begins and ends with a non-space is its own `strip()`. */
  lemma StripKeeps(s: string)
    requires s == [] || (!IsSpace(s[0]) && !IsSpace(s[|s| - 1]))
    ensures Strip(s) == s
  {
  }

  /** `s.rstrip("/")` */
  function TrimSlashes(s: string): (r: string)
    ensures r <= s
    ensures r == [] || r[|r| - 1] != '/'
    ensures forall i :: |r| <= i < |s| ==> s[i] == '/'
  {
    TrimRight(s, Slash)
  }

  /** `s.replace(pat, "")`: every non-overlapping occurrence of `pat`,
      scanning left to right, is removed. */
  function RemoveAll(s: string, pat: string): (r: string)
    ensures |r| <= |s|
    ensures pat == [] ==> r == s
    ensures !Contains(s, pat) ==> r == s
    decreases |s|
  {
    if pat == [] || |s| == 0 then s
    else if pat <= s then RemoveAll(s[|pat|..], pat)
    else [s[0]] + RemoveAll(s[1..], pat)
  }

  /** `s.split(sep)[0]`: everything before the first `sep`. */
  function BeforeFirst(s: string, sep: char): (r: string)
    ensures r <= s
    ensures sep !in r
    ensures |r| < |s| ==> s[|r|] == sep
    decreases |s|
  {
    if |s| == 0 || s[0] == sep then [] else [s[0]] + BeforeFirst(s[1..], sep)
  }
}
