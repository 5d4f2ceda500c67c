/**
 * Slug derivation shared by the form editor, the folder list and the
 * category hook (`BaseSlug`), and the stricter variant the affiliate link
 * builder applies to titles (`AffiliateSlug`).
 */
module Slug {
  import opened JsStrings

  /** Characters a slug may contain: lower-case letters, digits, `_` and `-`. */
  predicate IsSlugChar(c: char) { IsLower(c) || IsDigit(c) || c == '_' || c == '-' }

  /** The class `[\w-]`. */
  predicate IsWordOrDash(c: char) { IsWordChar(c) || c == '-' }

  predicate IsDash(c: char) { c == '-' }

  predicate NoDoubleDash(s: string)
  {
    forall i :: 0 <= i < |s| - 1 ==> !(s[i] == '-' && s[i + 1] == '-')
  }

  predicate NoEdgeDash(s: string)
  {
    s == [] || (s[0] != '-' && s[|s| - 1] != '-')
  }

  /**
   * Lower-cases, trims, turns every whitespace run into `-` and drops every
   * character outside `[\w-]`.
   */
  function BaseSlug(text: string): (r: string)
    ensures AllIn(r, IsSlugChar)
  {
    var lowered := Lower(text);
    var trimmed := Trim(lowered);
    TrimChars(lowered, (c: char) => !IsUpper(c));
    var dashed := ReplaceRuns(trimmed, IsSpace, '-');
    ReplaceRunsChars(trimmed, IsSpace, '-', (c: char) => !IsUpper(c));
    FilterChars(dashed, IsWordOrDash, (c: char) => !IsUpper(c));
    Filter(dashed, IsWordOrDash)
  }

  /** `replace(/^-|-$/g, '')`: one leading and one trailing dash are removed. */
  function StripEdgeDashes(s: string): (r: string)
    ensures exists a :: OccursAt(s, r, a)
    ensures AllIn(s, IsSlugChar) ==> AllIn(r, IsSlugChar)
    ensures NoDoubleDash(s) ==> NoDoubleDash(r) && NoEdgeDash(r)
    ensures NoEdgeDash(s) ==> r == s
  {
    var k := if s != [] && s[0] == '-' then 1 else 0;
    var a := s[k..];
    var r := if a != [] && a[|a| - 1] == '-' then a[..|a| - 1] else a;
    assert r == s[k..k + |r|];
    InnerPart(s, r, k);
    assert NoDoubleDash(s) && k == 1 && |s| > 1 ==> a[0] != '-';
    r
  }

  /** A part of a string keeps its slug characters and its lack of double dashes. */
  lemma InnerPart(s: string, r: string, k: nat)
    requires k + |r| <= |s| && r == s[k..k + |r|]
    ensures OccursAt(s, r, k)
    ensures AllIn(s, IsSlugChar) ==> AllIn(r, IsSlugChar)
    ensures NoDoubleDash(s) ==> NoDoubleDash(r)
  {
    assert forall i :: 0 <= i < |r| ==> r[i] == s[k + i];
  }

  /** The slug of a form title in an affiliate link. */
  function AffiliateSlug(title: string): (r: string)
    ensures AllIn(r, IsSlugChar) && NoDoubleDash(r) && NoEdgeDash(r)
  {
    var base := BaseSlug(title);
    var collapsed := ReplaceRuns(base, IsDash, '-');
    ReplaceRunsChars(base, IsDash, '-', IsSlugChar);
    StripEdgeDashes(collapsed)
  }

  /** A slug built by `BaseSlug` is its own slug. */
  lemma BaseSlugIdempotent(text: string)
    ensures BaseSlug(BaseSlug(text)) == BaseSlug(text)
  {
    BaseSlugFixes(BaseSlug(text));
  }

  /** `BaseSlug` leaves a string of slug characters unchanged. */
  lemma BaseSlugFixes(s: string)
    requires AllIn(s, IsSlugChar)
    ensures BaseSlug(s) == s
  {
    assert NoneIn(s, IsUpper) && NoneIn(s, IsSpace) && AllIn(s, IsWordOrDash) by {
      forall i | 0 <= i < |s| ensures !IsUpper(s[i]) && !IsSpace(s[i]) && IsWordOrDash(s[i]) {
        assert IsSlugChar(s[i]);
      }
    }
    LowerFixesLowered(s);
    assert Lower(s) == s;
    TrimKeeps(s);
    assert Trim(Lower(s)) == s;
    ReplaceRunsNone(s, IsSpace, '-');
    assert ReplaceRuns(Trim(Lower(s)), IsSpace, '-') == s;
  }

  /** An affiliate slug is its own affiliate slug. */
  lemma AffiliateSlugIdempotent(title: string)
    ensures AffiliateSlug(AffiliateSlug(title)) == AffiliateSlug(title)
  {
    var s := AffiliateSlug(title);
    BaseSlugFixes(s);
    ReplaceRunsSingles(s, IsDash, '-');
    assert ReplaceRuns(BaseSlug(s), IsDash, '-') == s;
  }
}
