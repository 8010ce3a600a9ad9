/** The handful of JavaScript string operations the engine and the forms
    rely on: `trim`, first-occurrence `replace`, `split('.')[0]`, a
    case-insensitive keyword test and a digit test. Strings are `seq<char>`. */
module Text {
  import opened Util

  /** The characters `String.prototype.trim` removes: the ECMAScript
      WhiteSpace and LineTerminator code points. */
  predicate IsSpace(c: char)
  {
    var n := c as int;
    n == 0x09 || n == 0x0A || n == 0x0B || n == 0x0C || n == 0x0D || n == 0x20
    || n == 0xA0 || n == 0x1680 || (0x2000 <= n <= 0x200A) || n == 0x2028
    || n == 0x2029 || n == 0x202F || n == 0x205F || n == 0x3000 || n == 0xFEFF
  }

  function TrimStart(s: string): (r: string)
    ensures |r| <= |s| && r == s[|s| - |r|..]
    ensures |r| > 0 ==> !IsSpace(r[0])
    ensures forall i :: 0 <= i < |s| - |r| ==> IsSpace(s[i])
  {
    if |s| > 0 && IsSpace(s[0]) then TrimStart(s[1..]) else s
  }

  function TrimEnd(s: string): (r: string)
    ensures |r| <= |s| && r == s[..|r|]
    ensures |r| > 0 ==> !IsSpace(r[|r| - 1])
    ensures forall i :: |r| <= i < |s| ==> IsSpace(s[i])
  {
    if |s| > 0 && IsSpace(s[|s| - 1]) then TrimEnd(s[..|s| - 1]) else s
  }

  /** `s.trim()`: the slice of s left after dropping white space at both
      ends; everything dropped is white space and what is kept starts and
      ends with a visible character. */
  function Trim(s: string): (r: string)
    ensures |r| <= |s|
    ensures var k := |s| - |TrimStart(s)|; k + |r| <= |s| && r == s[k..k + |r|]
    ensures var k := |s| - |TrimStart(s)|;
            (forall i :: 0 <= i < k ==> IsSpace(s[i])) && (forall i :: k + |r| <= i < |s| ==> IsSpace(s[i]))
    ensures |r| > 0 ==> !IsSpace(r[0]) && !IsSpace(r[|r| - 1])
  {
    var t := TrimStart(s);
    var r := TrimEnd(t);
    TrimSlices(s, t, r);
    r
  }

  lemma TrimSlices(s: string, t: string, r: string)
    requires |t| <= |s| && t == s[|s| - |t|..]
    requires |r| <= |t| && r == t[..|r|]
    requires |t| > 0 ==> !IsSpace(t[0])
    requires |r| > 0 ==> !IsSpace(r[|r| - 1])
    requires forall j :: |r| <= j < |t| ==> IsSpace(t[j])
    ensures var k := |s| - |t|; k + |r| <= |s| && r == s[k..k + |r|]
    ensures var k := |s| - |t|; forall i :: k + |r| <= i < |s| ==> IsSpace(s[i])
    ensures |r| > 0 ==> !IsSpace(r[0])
  {
    var k := |s| - |t|;
    assert s[k..][..|r|] == s[k..k + |r|];
    forall i | k + |r| <= i < |s|
      ensures IsSpace(s[i])
    {
      assert s[i] == t[i - k];
    }
    if |r| > 0 {
      assert r[0] == t[0];
    }
  }

  /** Trimming empties exactly the strings made of white space alone. */
  lemma TrimEmptyIffBlank(s: string)
    ensures |Trim(s)| == 0 <==> forall i :: 0 <= i < |s| ==> IsSpace(s[i])
  {
    var t := TrimStart(s);
    if |Trim(s)| == 0 {
      assert |t| == 0;
    } else if forall i :: 0 <= i < |s| ==> IsSpace(s[i]) {
      assert t[0] == s[|s| - |t|];
    }
  }

  /** A string with nothing but white space at both ends is its own trim. */
  lemma TrimUnchanged(s: string)
    requires |s| > 0 && !IsSpace(s[0]) && !IsSpace(s[|s| - 1])
    ensures Trim(s) == s
  {
  }

  predicate OccursAt(s: string, pat: string, i: nat)
  {
    i + |pat| <= |s| && s[i..i + |pat|] == pat
  }

  function IndexFrom(s: string, pat: string, k: nat): (r: Option<nat>)
    requires k <= |s|
    ensures r.Some? ==> k <= r.value && OccursAt(s, pat, r.value)
    ensures r.Some? ==> forall j :: k <= j < r.value ==> !OccursAt(s, pat, j)
    ensures r.None? ==> forall j :: k <= j <= |s| ==> !OccursAt(s, pat, j)
    decreases |s| - k
  {
    if OccursAt(s, pat, k) then Some(k)
    else if k == |s| then None
    else IndexFrom(s, pat, k + 1)
  }

  /** `s.indexOf(pat)`: the first position at which pat occurs. */
  function IndexOf(s: string, pat: string): (r: Option<nat>)
    ensures r.Some? ==> OccursAt(s, pat, r.value)
    ensures r.Some? ==> forall j :: 0 <= j < r.value ==> !OccursAt(s, pat, j)
    ensures r.None? <==> forall j :: 0 <= j <= |s| ==> !OccursAt(s, pat, j)
  {
    IndexFrom(s, pat, 0)
  }

  /** `s.replace(pat, rep)` with a string pattern: only the FIRST occurrence
      is replaced; without an occurrence the string is returned unchanged. */
  function Replace(s: string, pat: string, rep: string): (r: string)
    ensures (forall j :: 0 <= j <= |s| ==> !OccursAt(s, pat, j)) ==> r == s
    ensures forall i: nat :: OccursAt(s, pat, i) && (forall j :: 0 <= j < i ==> !OccursAt(s, pat, j))
              ==> r == s[..i] + rep + s[i + |pat|..]
  {
    match IndexOf(s, pat)
    case None => s
    case Some(i) => s[..i] + rep + s[i + |pat|..]
  }

  /** Replace at the first occurrence, for a caller that knows where it is. */
  lemma ReplaceFirst(s: string, pat: string, rep: string, i: nat)
    requires OccursAt(s, pat, i)
    requires forall j :: 0 <= j < i ==> !OccursAt(s, pat, j)
    ensures Replace(s, pat, rep) == s[..i] + rep + s[i + |pat|..]
  {
  }

  /** Whether pat occurs anywhere in s. */
  predicate Contains(s: string, pat: string)
  {
    IndexOf(s, pat).Some?
  }

  /** `s.split('.')[0]`: everything before the first full stop, or all of s. */
  function FirstClause(s: string): (r: string)
    ensures |r| <= |s| && r == s[..|r|]
    ensures forall i :: 0 <= i < |r| ==> r[i] != '.'
    ensures |r| < |s| ==> s[|r|] == '.'
  {
    if |s| == 0 || s[0] == '.' then [] else [s[0]] + FirstClause(s[1..])
  }

  /** ASCII lower-casing: what a case-insensitive match of an all-ASCII
      pattern compares by. */
  function LowerChar(c: char): char
  {
    if 'A' <= c <= 'Z' then (c as int + 32) as char else c
  }

  function ToLower(s: string): (r: string)
    ensures |r| == |s| && forall i :: 0 <= i < |s| ==> r[i] == LowerChar(s[i])
  {
    seq(|s|, i requires 0 <= i < |s| => LowerChar(s[i]))
  }

  lemma ToLowerAppend(s: string, t: string)
    ensures ToLower(s + t) == ToLower(s) + ToLower(t)
  {
  }

  predicate IsDigit(c: char) { '0' <= c <= '9' }

  /** `/\d+/.test(s)`. */
  predicate HasDigit(s: string)
  {
    exists i :: 0 <= i < |s| && IsDigit(s[i])
  }
}
