/** The domain-availability check's pure parts: the extension price table and
    the normalisation `domain.lower().strip().replace(" ", "").split(".")[0]`. */
module Domains {

  import Text

  /** `DOMAIN_PRICES`, in table order; prices in cents. */
  const Extensions: seq<string> := [".com", ".io", ".co", ".dev", ".app"]
  const PriceCents: seq<nat> := [1299, 2499, 1499, 1999, 1699]

  /** `s` holds no `c`. */
  predicate Lacks(s: string, c: char) {
    forall k :: 0 <= k < |s| ==> s[k] != c
  }

  /** `s.replace(" ", "")`. */
  function RemoveSpaces(s: string): (r: string)
    ensures |r| <= |s|
    ensures Lacks(r, ' ')
    ensures Text.NoUpper(s) ==> Text.NoUpper(r)
    ensures Lacks(s, ' ') ==> r == s
    ensures Lacks(s, '.') ==> Lacks(r, '.')
    ensures |s| == 1 ==> r == if s[0] == ' ' then [] else s
  {
    if s == [] then []
    else if s[0] == ' ' then RemoveSpaces(s[1..])
    else [s[0]] + RemoveSpaces(s[1..])
  }

  /** `s.split(".")[0]`: the text before the first dot, or all of `s`. */
  function BeforeFirstDot(s: string): (r: string)
    ensures |r| <= |s| && r == s[..|r|]
    ensures Lacks(r, '.')
    ensures |r| < |s| ==> s[|r|] == '.'
    ensures Text.NoUpper(s) ==> Text.NoUpper(r)
    ensures Lacks(s, ' ') ==> Lacks(r, ' ')
  {
    if s == [] || s[0] == '.' then [] else [s[0]] + BeforeFirstDot(s[1..])
  }

  /** The name the availability check is run for. */
  function Base(domain: string): (r: string)
    ensures Lacks(r, '.') && Lacks(r, ' ') && Text.NoUpper(r)
    ensures |r| <= |domain|
  {
    var lowered := Text.Lower(domain);
    var stripped := Text.Strip(lowered);
    Text.NoUpperStrip(lowered);
    var spaced := RemoveSpaces(stripped);
    BeforeFirstDot(spaced)
  }

  /** Removing spaces from two pieces side by side removes them from each:
      with the one-character case, this fixes which characters are kept and
      in what order. */
  lemma {:induction false} RemoveSpacesAppend(a: string, b: string)
    ensures RemoveSpaces(a + b) == RemoveSpaces(a) + RemoveSpaces(b)
  {
    if a == [] {
      assert a + b == b;
    } else {
      assert (a + b)[1..] == a[1..] + b;
      RemoveSpacesAppend(a[1..], b);
    }
  }

  /** A label that neither starts nor ends with whitespace; inside it, spaces
      and other whitespace may occur. */
  predicate Trimmed(v: string) {
    v != [] && !Text.IsSpace(v[0]) && !Text.IsSpace(v[|v| - 1])
  }

  /** The checked name of a request `w1 + v + ext + w2`: whatever the case of
      the label `v`, the whitespace `w1`, `w2` around the request and what
      follows the label's first dot, the name checked is the lower-cased label
      with its spaces removed. */
  lemma BaseOfRequest(w1: string, v: string, ext: string, w2: string)
    requires Text.AllSpace(w1) && Text.AllSpace(w2)
    requires Trimmed(v) && Lacks(v, '.')
    requires ext == [] || ext[0] == '.'
    ensures Base(w1 + v + ext + w2) == RemoveSpaces(Text.Lower(v))
  {
    var rest := StrippedRequest(w1, v, ext, w2);
    BaseOfStripped(w1 + v + ext + w2, Text.Lower(v), rest);
  }

  /** The stripped, lower-cased request is the lower-cased label and part of the extension. */
  lemma StrippedRequest(w1: string, v: string, ext: string, w2: string) returns (rest: string)
    requires Text.AllSpace(w1) && Text.AllSpace(w2)
    requires Trimmed(v)
    requires ext == [] || ext[0] == '.'
    ensures Text.Strip(Text.Lower(w1 + v + ext + w2)) == Text.Lower(v) + rest
    ensures rest == [] || rest[0] == '.'
  {
    LowerRequest(w1, v, ext, w2);
    Text.LowerAllSpace(w1);
    Text.LowerAllSpace(w2);
    LowerLabel(v, ext);
    rest := StripPaddedLabel(Text.Lower(w1), Text.Lower(v), Text.Lower(ext), Text.Lower(w2));
  }

  /** Lowering keeps a trimmed label trimmed and a dotted extension dotted. */
  lemma LowerLabel(v: string, ext: string)
    requires Trimmed(v)
    requires ext == [] || ext[0] == '.'
    ensures Trimmed(Text.Lower(v))
    ensures Text.Lower(ext) == [] || Text.Lower(ext)[0] == '.'
  {
  }

  /** Stripping whitespace around a trimmed label followed by a dotted suffix
      keeps the label and part of the suffix. */
  lemma StripPaddedLabel(w1: string, name: string, suffix: string, w2: string) returns (rest: string)
    requires Text.AllSpace(w1) && Text.AllSpace(w2)
    requires Trimmed(name)
    requires suffix == [] || suffix[0] == '.'
    ensures Text.Strip(w1 + (name + suffix) + w2) == name + rest
    ensures rest == [] || rest[0] == '.'
  {
    Text.StripPadding(w1, name + suffix, w2);
    rest := StripLabel(name, suffix);
  }

  /** The checked name of a domain whose stripped, lower-cased form is a
      dot-free label followed by a dotted suffix is that label without spaces. */
  lemma BaseOfStripped(domain: string, name: string, rest: string)
    requires Text.Strip(Text.Lower(domain)) == name + rest
    requires Lacks(name, '.')
    requires rest == [] || rest[0] == '.'
    ensures Base(domain) == RemoveSpaces(name)
  {
    RemoveSpacesAppend(name, rest);
    DottedStaysDotted(rest);
    BeforeFirstDotAppend(RemoveSpaces(name), RemoveSpaces(rest));
  }

  /** Lowering the pieces of a request one by one. */
  lemma LowerRequest(w1: string, v: string, ext: string, w2: string)
    ensures Text.Lower(w1 + v + ext + w2) == Text.Lower(w1) + (Text.Lower(v) + Text.Lower(ext)) + Text.Lower(w2)
  {
    Text.LowerAppend(w1 + v + ext, w2);
    Text.LowerAppend(w1 + v, ext);
    Text.LowerAppend(w1, v);
  }

  /** Stripping a trimmed label followed by a dotted suffix keeps the label and
      part of the suffix. */
  lemma StripLabel(name: string, suffix: string) returns (rest: string)
    requires Trimmed(name)
    requires suffix == [] || suffix[0] == '.'
    ensures Text.Strip(name + suffix) == name + rest
    ensures rest == [] || rest[0] == '.'
  {
    var y := name + suffix;
    var r := Text.Strip(y);
    assert Text.LeadingSpaces(y) == 0 by {
      assert !Text.IsSpace(y[0]);
    }
    assert !Text.IsSpace(y[|name| - 1]);
    assert |r| >= |name|;
    rest := suffix[..|r| - |name|];
    assert r == name + rest;
  }

  /** Space removal keeps a leading dot in front. */
  lemma DottedStaysDotted(s: string)
    requires s == [] || s[0] == '.'
    ensures RemoveSpaces(s) == [] || RemoveSpaces(s)[0] == '.'
  {
    if s != [] {
      assert s == [s[0]] + s[1..];
      RemoveSpacesAppend([s[0]], s[1..]);
    }
  }

  /** The text before the first dot of a dot-free name followed by a dotted suffix is the name. */
  lemma {:induction false} BeforeFirstDotAppend(name: string, rest: string)
    requires Lacks(name, '.')
    requires rest == [] || rest[0] == '.'
    ensures BeforeFirstDot(name + rest) == name
  {
    if name == [] {
      assert name + rest == rest;
    } else {
      assert (name + rest)[1..] == name[1..] + rest;
      BeforeFirstDotAppend(name[1..], rest);
    }
  }

  /** One entry of the check's answer. */
  datatype Offer = Offer(domain: string, available: bool, priceCents: nat)
}
