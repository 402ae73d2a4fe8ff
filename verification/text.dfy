/** The string built-ins the handlers rely on: `str.strip()`, `str.lower()`,
    `str.title()`, `str.startswith`, `str.replace(pat, "")` and the slice
    `s[-4:]`. Case mapping is modelled on ASCII letters only. */
module Text {

  /** The characters for which `str.isspace()` holds. */
  predicate IsSpace(c: char) {
    c == ' ' || ('\t' <= c <= '\r') || ('\U{1c}' <= c <= '\U{1f}') ||
    c == '\U{85}' || c == '\U{a0}' || c == '\U{1680}' || ('\U{2000}' <= c <= '\U{200a}') ||
    c == '\U{2028}' || c == '\U{2029}' || c == '\U{202f}' || c == '\U{205f}' || c == '\U{3000}'
  }

  predicate IsUpper(c: char) { 'A' <= c <= 'Z' }

  predicate IsLetter(c: char) { 'A' <= c <= 'Z' || 'a' <= c <= 'z' }

  /** `s` holds no upper-case letter. */
  predicate NoUpper(s: string) {
    forall k :: 0 <= k < |s| ==> !IsUpper(s[k])
  }

  /** Every character of `s` is whitespace. */
  predicate AllSpace(s: string) {
    forall k :: 0 <= k < |s| ==> IsSpace(s[k])
  }

  /** Any slice of text without upper-case letters has none either. */
  lemma NoUpperSlice(s: string, i: nat, j: nat)
    requires NoUpper(s)
    requires i <= j <= |s|
    ensures NoUpper(s[i..j])
  {
    assert forall k :: 0 <= k < j - i ==> s[i..j][k] == s[i + k];
  }

  function LowerChar(c: char): (d: char)
    ensures !IsUpper(d)
    ensures IsLetter(d) <==> IsLetter(c)
    ensures !IsUpper(c) ==> d == c
  {
    if IsUpper(c) then (c as int + 32) as char else c
  }

  function UpperChar(c: char): (d: char)
    ensures !('a' <= d <= 'z')
    ensures IsLetter(d) <==> IsLetter(c)
    ensures !('a' <= c <= 'z') ==> d == c
  {
    if 'a' <= c <= 'z' then (c as int - 32) as char else c
  }

  /** `s.lower()`. */
  function Lower(s: string): (r: string)
    ensures |r| == |s|
    ensures forall k :: 0 <= k < |s| ==>
      && (IsUpper(s[k]) ==> r[k] as int == s[k] as int + 32)
      && (!IsUpper(s[k]) ==> r[k] == s[k])
    ensures NoUpper(r)
    ensures forall k :: 0 <= k < |r| ==> (IsSpace(r[k]) <==> IsSpace(s[k]))
    ensures forall k :: 0 <= k < |r| ==> (r[k] == '.' <==> s[k] == '.') && (r[k] == ' ' <==> s[k] == ' ')
    ensures NoUpper(s) ==> r == s
  {
    seq(|s|, k requires 0 <= k < |s| => LowerChar(s[k]))
  }

  /** Lowering commutes with concatenation. */
  lemma LowerAppend(a: string, b: string)
    ensures Lower(a + b) == Lower(a) + Lower(b)
  {
    assert forall k :: 0 <= k < |a + b| ==> Lower(a + b)[k] == (Lower(a) + Lower(b))[k];
  }

  /** Lowering keeps whitespace whitespace. */
  lemma LowerAllSpace(s: string)
    requires AllSpace(s)
    ensures AllSpace(Lower(s))
  {
  }

  /** Lowering a slice is slicing the lowered text. */
  lemma LowerSlice(s: string, i: nat, j: nat)
    requires i <= j <= |s|
    ensures Lower(s[i..j]) == Lower(s)[i..j]
  {
    assert forall k :: 0 <= k < j - i ==> Lower(s[i..j])[k] == Lower(s)[i..j][k];
  }

  /** The number of whitespace characters at the start of `s`. */
  function LeadingSpaces(s: string): (n: nat)
    ensures n <= |s|
    ensures forall k :: 0 <= k < n ==> IsSpace(s[k])
    ensures n < |s| ==> !IsSpace(s[n])
  {
    if |s| > 0 && IsSpace(s[0]) then 1 + LeadingSpaces(s[1..]) else 0
  }

  /** The number of whitespace characters at the end of `s`. */
  function TrailingSpaces(s: string): (n: nat)
    ensures n <= |s|
    ensures forall k :: |s| - n <= k < |s| ==> IsSpace(s[k])
    ensures n < |s| ==> !IsSpace(s[|s| - 1 - n])
  {
    if |s| > 0 && IsSpace(s[|s| - 1]) then 1 + TrailingSpaces(s[..|s| - 1]) else 0
  }

  /** `s.strip()`: `s` without its leading and trailing whitespace. */
  function Strip(s: string): (r: string)
    ensures LeadingSpaces(s) + |r| <= |s|
    ensures r == [] || (!IsSpace(r[0]) && !IsSpace(r[|r| - 1]))
    ensures r == s[LeadingSpaces(s)..LeadingSpaces(s) + |r|]
    ensures forall k :: 0 <= k < |s| && !(LeadingSpaces(s) <= k < LeadingSpaces(s) + |r|) ==> IsSpace(s[k])
  {
    var t := s[LeadingSpaces(s)..];
    t[..|t| - TrailingSpaces(t)]
  }

  /** Stripping text without upper-case letters leaves none. */
  lemma NoUpperStrip(s: string)
    requires NoUpper(s)
    ensures NoUpper(Strip(s))
  {
    NoUpperSlice(s, LeadingSpaces(s), LeadingSpaces(s) + |Strip(s)|);
  }

  /** Stripping a string that neither starts nor ends with whitespace changes nothing. */
  lemma StripClean(s: string)
    requires s == [] || (!IsSpace(s[0]) && !IsSpace(s[|s| - 1]))
    ensures Strip(s) == s
  {
    if s != [] {
      assert LeadingSpaces(s) == 0;
      assert TrailingSpaces(s) == 0;
    }
  }

  /** `strip()` is determined by where the whitespace is: a slice with only
      whitespace before and after it, and none at either end, is the strip. */
  lemma StripUnique(x: string, i: nat, j: nat)
    requires i <= j <= |x|
    requires forall k :: 0 <= k < i ==> IsSpace(x[k])
    requires forall k :: j <= k < |x| ==> IsSpace(x[k])
    requires i == j || (!IsSpace(x[i]) && !IsSpace(x[j - 1]))
    ensures Strip(x) == x[i..j]
  {
  }

  /** Whitespace around a text does not change its strip. */
  lemma StripPadding(w1: string, s: string, w2: string)
    requires AllSpace(w1) && AllSpace(w2)
    ensures Strip(w1 + s + w2) == Strip(s)
  {
    var x := w1 + s + w2;
    var i := |w1| + LeadingSpaces(s);
    var r := Strip(s);
    PaddedFront(w1, s, w2);
    PaddedBack(w1, s, w2);
    assert |r| > 0 ==> x[i] == r[0] && x[i + |r| - 1] == r[|r| - 1];
    StripUnique(x, i, i + |r|);
    assert x[i..i + |r|] == r;
  }

  /** Whitespace in front, then the text's own leading whitespace. */
  lemma PaddedFront(w1: string, s: string, w2: string)
    requires AllSpace(w1)
    ensures forall k :: 0 <= k < |w1| + LeadingSpaces(s) ==> IsSpace((w1 + s + w2)[k])
  {
    var x := w1 + s + w2;
    forall k | 0 <= k < |w1| + LeadingSpaces(s)
      ensures IsSpace(x[k])
    {
      if k >= |w1| {
        assert x[k] == s[k - |w1|];
      }
    }
  }

  /** The text's own trailing whitespace, then whitespace behind. */
  lemma PaddedBack(w1: string, s: string, w2: string)
    requires AllSpace(w2)
    ensures forall k :: |w1| + LeadingSpaces(s) + |Strip(s)| <= k < |w1 + s + w2| ==> IsSpace((w1 + s + w2)[k])
  {
    var x := w1 + s + w2;
    forall k | |w1| + LeadingSpaces(s) + |Strip(s)| <= k < |x|
      ensures IsSpace(x[k])
    {
      if k < |w1| + |s| {
        assert x[k] == s[k - |w1|];
      } else {
        assert x[k] == w2[k - |w1| - |s|];
      }
    }
  }

  /** `s.strip().lower()`: how login, register and user creation normalise an email. */
  function NormaliseEmail(s: string): (r: string)
    ensures |r| <= |s|
    ensures NoUpper(r)
    ensures r == [] || (!IsSpace(r[0]) && !IsSpace(r[|r| - 1]))
  {
    Lower(Strip(s))
  }

  /** Normalising twice is normalising once. */
  lemma NormaliseEmailIdempotent(s: string)
    ensures NormaliseEmail(NormaliseEmail(s)) == NormaliseEmail(s)
  {
    var r := NormaliseEmail(s);
    StripClean(r);
  }

  /** Emails that differ only in the case of their letters normalise alike. */
  lemma NormaliseEmailIgnoresCase(a: string, b: string)
    requires Lower(a) == Lower(b)
    ensures NormaliseEmail(a) == NormaliseEmail(b)
  {
    SameSpaces(a, b);
    NormaliseSameSpaces(a, a);
    NormaliseSameSpaces(a, b);
  }

  /** Texts with the same lower-case form have whitespace in the same places. */
  lemma SameSpaces(a: string, b: string)
    requires Lower(a) == Lower(b)
    ensures |a| == |b|
    ensures forall k :: 0 <= k < |a| ==> (IsSpace(a[k]) <==> IsSpace(b[k]))
  {
    forall k | 0 <= k < |a|
      ensures IsSpace(a[k]) <==> IsSpace(b[k])
    {
      assert Lower(a)[k] == Lower(b)[k];
    }
  }

  /** A text with whitespace in the same places as `a` normalises to the
      stretch of its lowered form that the strip of `a` keeps. */
  lemma NormaliseSameSpaces(a: string, b: string)
    requires |a| == |b|
    requires forall k :: 0 <= k < |a| ==> (IsSpace(a[k]) <==> IsSpace(b[k]))
    ensures NormaliseEmail(b) == Lower(b)[LeadingSpaces(a)..LeadingSpaces(a) + |Strip(a)|]
  {
    var i := LeadingSpaces(a);
    var j := i + |Strip(a)|;
    assert i < j ==> a[i] == Strip(a)[0] && a[j - 1] == Strip(a)[j - 1 - i];
    StripUnique(b, i, j);
    LowerSlice(b, i, j);
  }

  /** Whitespace around an email does not change its normal form. */
  lemma NormaliseEmailIgnoresPadding(w1: string, s: string, w2: string)
    requires AllSpace(w1) && AllSpace(w2)
    ensures NormaliseEmail(w1 + s + w2) == NormaliseEmail(s)
  {
    StripPadding(w1, s, w2);
  }

  /** `s.startswith(prefix)`. */
  predicate StartsWith(s: string, prefix: string) {
    |prefix| <= |s| && s[..|prefix|] == prefix
  }

  /** A text starts with a prefix exactly when it is that prefix followed by the rest. */
  lemma StartsWithSplit(s: string, prefix: string, rest: string)
    ensures StartsWith(prefix + rest, prefix)
    ensures StartsWith(s, prefix) ==> s == prefix + s[|prefix|..]
  {
    assert (prefix + rest)[..|prefix|] == prefix;
  }

  /** Whether `pat` occurs in `s` at some position. */
  predicate Occurs(s: string, pat: string)
    decreases |s|
  {
    |pat| <= |s| && (s[..|pat|] == pat || (|s| > 0 && Occurs(s[1..], pat)))
  }

  /** `s.replace(pat, "")`: every non-overlapping occurrence of `pat`, scanning
      from the left, is deleted. */
  function RemoveAll(s: string, pat: string): (r: string)
    requires |pat| > 0
    ensures |r| <= |s|
    ensures !Occurs(s, pat) ==> r == s
    decreases |s|
  {
    if |s| < |pat| then s
    else if s[..|pat|] == pat then RemoveAll(s[|pat|..], pat)
    else [s[0]] + RemoveAll(s[1..], pat)
  }

  /** An occurrence at the front is deleted. */
  lemma RemoveAllLeading(pat: string, s: string)
    requires |pat| > 0
    ensures RemoveAll(pat + s, pat) == RemoveAll(s, pat)
  {
    assert (pat + s)[..|pat|] == pat;
    assert (pat + s)[|pat|..] == s;
  }

  /** Text in front of which no occurrence starts is kept as it is. */
  lemma {:induction false} RemoveAllKeeps(a: string, s: string, pat: string)
    requires |pat| > 0
    requires forall i :: 0 <= i < |a| ==> !StartsWith((a + s)[i..], pat)
    ensures RemoveAll(a + s, pat) == a + RemoveAll(s, pat)
    decreases |a|
  {
    if a == [] {
      assert a + s == s;
    } else {
      NoStartAfterFirst(a, s, pat);
      RemoveAllKeeps(a[1..], s, pat);
      RemoveAllCons(a, s, pat);
    }
  }

  /** One step of `RemoveAllKeeps`: a first character at which no occurrence
      starts is kept in front of what the rest becomes. */
  lemma RemoveAllCons(a: string, s: string, pat: string)
    requires |pat| > 0 && a != []
    requires !StartsWith((a + s)[0..], pat)
    requires RemoveAll(a[1..] + s, pat) == a[1..] + RemoveAll(s, pat)
    ensures RemoveAll(a + s, pat) == a + RemoveAll(s, pat)
  {
    RemoveAllStep(a, s, pat);
    ConsSplit(a, RemoveAll(s, pat), RemoveAll(a + s, pat), RemoveAll(a[1..] + s, pat));
  }

  /** Where no occurrence starts, the first character is kept. */
  lemma RemoveAllStep(a: string, s: string, pat: string)
    requires |pat| > 0 && a != []
    requires !StartsWith((a + s)[0..], pat)
    ensures RemoveAll(a + s, pat) == [a[0]] + RemoveAll(a[1..] + s, pat)
  {
    var x := a + s;
    assert x[0..] == x;
    assert x[1..] == a[1..] + s;
    if |x| < |pat| {
      assert RemoveAll(x[1..], pat) == x[1..];
      assert x == [x[0]] + x[1..];
    }
  }

  /** Putting the first element back in front of a list built on the rest. */
  lemma ConsSplit(a: string, k: string, whole: string, rest: string)
    requires a != []
    requires whole == [a[0]] + rest
    requires rest == a[1..] + k
    ensures whole == a + k
  {
    assert [a[0]] + (a[1..] + k) == a + k;
  }

  /** Dropping the first character keeps the other starts free of `pat`. */
  lemma NoStartAfterFirst(a: string, s: string, pat: string)
    requires a != []
    requires forall i :: 0 <= i < |a| ==> !StartsWith((a + s)[i..], pat)
    ensures forall i :: 0 <= i < |a[1..]| ==> !StartsWith((a[1..] + s)[i..], pat)
  {
    forall i | 0 <= i < |a| - 1
      ensures !StartsWith((a[1..] + s)[i..], pat)
    {
      assert (a[1..] + s)[i..] == (a + s)[i + 1..];
    }
  }

  lemma Regroup(p: string, a: string, b: string)
    ensures p + a + p + b == p + (a + (p + b))
  {
  }

  /** `replace` deletes both occurrences around a stretch it keeps. */
  lemma RemoveAllBetween(a: string, b: string, pat: string)
    requires |pat| > 0
    requires forall i :: 0 <= i < |a| ==> !StartsWith((a + (pat + b))[i..], pat)
    requires !Occurs(b, pat)
    ensures RemoveAll(pat + a + pat + b, pat) == a + b
  {
    var tail := pat + b;
    var mid := a + tail;
    Regroup(pat, a, b);
    RemoveAllLeading(pat, mid);
    RemoveAllKeeps(a, tail, pat);
    RemoveAllLeading(pat, b);
  }

  /** What `title()` makes of one character: a non-letter stays, a letter
      after a letter is lowered, any other letter is raised. */
  function TitleChar(c: char, afterLetter: bool): char {
    if !IsLetter(c) then c else if afterLetter then LowerChar(c) else UpperChar(c)
  }

  /** Whether the character before position `k` of `s` is a letter. */
  predicate AfterLetter(s: string, k: int)
    requires k < |s|
  {
    0 < k && IsLetter(s[k - 1])
  }

  /** `s.title()` from a position whose previous character was (or was not) a letter. */
  function TitleFrom(s: string, afterLetter: bool): (r: string)
    ensures |r| == |s|
  {
    if s == [] then []
    else [TitleChar(s[0], afterLetter)] + TitleFrom(s[1..], IsLetter(s[0]))
  }

  /** Each character of the title-cased text depends only on itself and on
      whether the character before it is a letter. */
  lemma {:induction false} TitleFromAt(s: string, afterLetter: bool, k: nat)
    requires k < |s|
    ensures TitleFrom(s, afterLetter)[k] == TitleChar(s[k], if k == 0 then afterLetter else IsLetter(s[k - 1]))
    decreases k
  {
    if k > 0 {
      TitleFromAt(s[1..], IsLetter(s[0]), k - 1);
      assert s[1..][k - 1] == s[k];
      if k > 1 {
        assert s[1..][k - 2] == s[k - 1];
      }
    }
  }

  /** `s.title()`: each run of letters starts upper-case and continues lower-case. */
  function TitleCase(s: string): (r: string)
    ensures |r| == |s|
    ensures forall k :: 0 <= k < |s| ==> r[k] == TitleChar(s[k], AfterLetter(s, k))
  {
    TitleFromPattern(s);
    TitleFrom(s, false)
  }

  lemma TitleFromPattern(s: string)
    ensures forall k :: 0 <= k < |s| ==> TitleFrom(s, false)[k] == TitleChar(s[k], AfterLetter(s, k))
  {
    forall k | 0 <= k < |s|
      ensures TitleFrom(s, false)[k] == TitleChar(s[k], AfterLetter(s, k))
    {
      TitleFromAt(s, false, k);
    }
  }

  /** The case pattern `title()` leaves: letters keep their identity, a
      letter after a letter is not upper-case, a letter after anything else
      is not lower-case, and everything else is untouched. */
  lemma TitleCasePattern(s: string)
    ensures forall k :: 0 <= k < |s| && !IsLetter(s[k]) ==> TitleCase(s)[k] == s[k]
    ensures forall k :: 0 <= k < |s| && IsLetter(s[k]) ==> LowerChar(TitleCase(s)[k]) == LowerChar(s[k])
    ensures forall k :: 0 < k < |s| && IsLetter(s[k]) && IsLetter(s[k - 1]) ==> !IsUpper(TitleCase(s)[k])
    ensures forall k :: 0 <= k < |s| && IsLetter(s[k]) && (k == 0 || !IsLetter(s[k - 1])) ==>
      !('a' <= TitleCase(s)[k] <= 'z')
  {
    forall k | 0 <= k < |s| && IsLetter(s[k])
      ensures LowerChar(TitleCase(s)[k]) == LowerChar(s[k])
    {
      LowerOfUpper(s[k]);
    }
  }

  /** Raising a letter and lowering it again is lowering it. */
  lemma LowerOfUpper(c: char)
    ensures LowerChar(UpperChar(c)) == LowerChar(c)
  {
    if 'a' <= c <= 'z' {
      assert UpperChar(c) as int == c as int - 32;
      assert IsUpper(UpperChar(c));
    }
  }

  /** Title-casing twice is title-casing once. */
  lemma {:induction false} TitleFromIdempotent(s: string, afterLetter: bool)
    ensures TitleFrom(TitleFrom(s, afterLetter), afterLetter) == TitleFrom(s, afterLetter)
  {
    if s != [] {
      var r := TitleFrom(s, afterLetter);
      var c := s[0];
      assert r[0] == TitleChar(c, afterLetter);
      assert IsLetter(r[0]) == IsLetter(c);
      assert r[1..] == TitleFrom(s[1..], IsLetter(c));
      TitleFromIdempotent(s[1..], IsLetter(c));
    }
  }

  /** `s[-4:]`: the last four characters, or all of `s` when it is shorter. */
  function LastFour(s: string): (r: string)
    ensures |r| == if |s| < 4 then |s| else 4
    ensures r == s[|s| - |r|..]
  {
    if |s| <= 4 then s else s[|s| - 4..]
  }
}
