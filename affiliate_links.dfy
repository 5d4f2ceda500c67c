/**
 * `src/components/AffiliateLinksManager.jsx`: the shareable link of an
 * affiliate. The form slug is taken from an explicit slug field when there
 * is one, otherwise derived from the first usable title, otherwise a fixed
 * placeholder.
 */
module AffiliateLinks {
  import opened Wrappers
  import opened JsStrings
  import opened Slug

  const NotFoundSlug := "form-not-found"

  /** The text JavaScript writes for a missing value in a template. */
  const UndefinedText := "undefined"

  /** The nested `form` record. */
  datatype FormRef = FormRef(slug: Option<string>, title: Option<string>)

  /** The fields of an affiliate record the link is built from; non-string values are `None`. */
  datatype Affiliate = Affiliate(
    form: Option<FormRef>, formSlug: Option<string>, slug: Option<string>, formTitle: Option<string>,
    title: Option<string>, name: Option<string>, formName: Option<string>, affiliateCode: Option<string>)

  /** A title the fallback search accepts: a non-empty string other than the text `undefined`. */
  predicate UsableTitle(t: Option<string>) { Truthy(t) && t.value != UndefinedText }

  /** The first usable value among `title`, `name`, `form_name`. */
  function FirstTitle(fields: seq<Option<string>>): (r: Option<string>)
    ensures r.Some? ==> r.value != "" && r.value != UndefinedText
    ensures r.Some? ==>
      exists k :: 0 <= k < |fields| && fields[k] == r && forall j :: 0 <= j < k ==> !UsableTitle(fields[j])
    ensures r.None? <==> forall i :: 0 <= i < |fields| ==> !UsableTitle(fields[i])
    decreases |fields|
  {
    if fields == [] then None
    else if UsableTitle(fields[0]) then fields[0]
    else
      var r := FirstTitle(fields[1..]);
      assert r.Some? ==>
        exists k :: 0 <= k < |fields| && fields[k] == r && forall j :: 0 <= j < k ==> !UsableTitle(fields[j]) by {
        if r.Some? {
          var k :| 0 <= k < |fields[1..]| && fields[1..][k] == r && forall j :: 0 <= j < k ==> !UsableTitle(fields[1..][j]);
          assert fields[k + 1] == r;
        }
      }
      r
  }

  /** The fields searched for a title, in the order the code tries them. */
  function TitleFields(a: Affiliate): seq<Option<string>> { [a.title, a.name, a.formName] }

  /** The `for … of titleFields` loop with its `break`. */
  method FindTitle(a: Affiliate) returns (found: Option<string>)
    ensures found == FirstTitle(TitleFields(a))
  {
    var fields := TitleFields(a);
    found := None;
    var i := 0;
    while i < |fields|
      invariant 0 <= i <= |fields|
      invariant FirstTitle(fields) == FirstTitle(fields[i..])
      invariant found == None
    {
      if UsableTitle(fields[i]) {
        found := fields[i];
        break;
      }
      assert fields[i..][1..] == fields[i + 1..];
      i := i + 1;
    }
  }

  /**
   * The slug of the link: `form.slug`, then `form_slug`, then `slug`; else
   * the affiliate slug of `form.title`, then of `form_title` unless it is
   * the text `undefined`, then of the first usable fallback title; else
   * `form-not-found`. The slug and title fields are optional text, so a
   * field holding some other truthy value (a number) is not represented.
   */
  function LinkSlug(a: Affiliate): (r: string)
    ensures a.form.Some? && Truthy(a.form.value.slug) ==> r == a.form.value.slug.value
    ensures !(a.form.Some? && Truthy(a.form.value.slug)) && Truthy(a.formSlug) ==> r == a.formSlug.value
    ensures !(a.form.Some? && Truthy(a.form.value.slug)) && !Truthy(a.formSlug) && Truthy(a.slug) ==> r == a.slug.value
    ensures !(a.form.Some? && Truthy(a.form.value.slug)) && !Truthy(a.formSlug) && !Truthy(a.slug) ==>
      if a.form.Some? && Truthy(a.form.value.title) then r == AffiliateSlug(a.form.value.title.value)
      else if UsableTitle(a.formTitle) then r == AffiliateSlug(a.formTitle.value)
      else if FirstTitle(TitleFields(a)).Some? then r == AffiliateSlug(FirstTitle(TitleFields(a)).value)
      else r == NotFoundSlug
  {
    if a.form.Some? && Truthy(a.form.value.slug) then a.form.value.slug.value
    else if Truthy(a.formSlug) then a.formSlug.value
    else if Truthy(a.slug) then a.slug.value
    else if a.form.Some? && Truthy(a.form.value.title) then AffiliateSlug(a.form.value.title.value)
    else if UsableTitle(a.formTitle) then AffiliateSlug(a.formTitle.value)
    else
      var found := FirstTitle(TitleFields(a));
      if found.Some? then AffiliateSlug(found.value) else NotFoundSlug
  }

  /**
   * Without an explicit slug field the link's slug is well formed: slug
   * characters only, no doubled dash, no dash at either end, and its own
   * slug.
   */
  lemma DerivedSlugWellFormed(a: Affiliate)
    requires !(a.form.Some? && Truthy(a.form.value.slug)) && !Truthy(a.formSlug) && !Truthy(a.slug)
    ensures AllIn(LinkSlug(a), IsSlugChar) && NoDoubleDash(LinkSlug(a)) && NoEdgeDash(LinkSlug(a))
    ensures LinkSlug(a) != NotFoundSlug ==> AffiliateSlug(LinkSlug(a)) == LinkSlug(a)
  {
    var found := FirstTitle(TitleFields(a));
    if a.form.Some? && Truthy(a.form.value.title) {
      AffiliateSlugIdempotent(a.form.value.title.value);
    } else if UsableTitle(a.formTitle) {
      AffiliateSlugIdempotent(a.formTitle.value);
    } else if found.Some? {
      AffiliateSlugIdempotent(found.value);
    } else {
      assert LinkSlug(a) == NotFoundSlug;
      assert forall i :: 0 <= i < |NotFoundSlug| ==> IsSlugChar(NotFoundSlug[i]);
    }
  }

  /** `${value}` in a template literal. */
  function TemplateText(value: Option<string>): string
  {
    if value.Some? then value.value else UndefinedText
  }

  /** `generateAffiliateLink`: `origin/forms/<slug>?ref=<affiliate code>`. */
  method GenerateAffiliateLink(a: Affiliate, origin: string) returns (link: string)
    ensures link == origin + "/forms/" + LinkSlug(a) + "?ref=" + TemplateText(a.affiliateCode)
  {
    var formSlug: string;
    if a.form.Some? && Truthy(a.form.value.slug) {
      formSlug := a.form.value.slug.value;
    } else if Truthy(a.formSlug) {
      formSlug := a.formSlug.value;
    } else if Truthy(a.slug) {
      formSlug := a.slug.value;
    } else if a.form.Some? && Truthy(a.form.value.title) {
      formSlug := AffiliateSlug(a.form.value.title.value);
    } else if UsableTitle(a.formTitle) {
      formSlug := AffiliateSlug(a.formTitle.value);
    } else {
      var foundTitle := FindTitle(a);
      if foundTitle.Some? {
        formSlug := AffiliateSlug(foundTitle.value);
      } else {
        formSlug := NotFoundSlug;
      }
    }
    link := origin + "/forms/" + formSlug + "?ref=" + TemplateText(a.affiliateCode);
  }
}
