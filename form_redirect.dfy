/**
 * `src/pages/FormRedirect.jsx`: the short form link `/forms/<slug>` sends
 * the visitor on to the form page, keeping the referral code and nothing
 * else from the query.
 */
module FormRedirect {
  import opened Wrappers
  import Routes
  import AffiliateLinks

  /** A `navigate` call: the target and whether it replaces the history entry. */
  datatype Navigation = Navigation(to: string, replace: bool)

  /**
   * The redirect for a slug and the query's `ref` parameter (`None` when the
   * query has none): the form page of the slug, with `?ref=<code>` appended
   * exactly when the code is non-empty.
   */
  function Target(slug: string, ref: Option<string>): (r: Navigation)
    ensures r.replace
    ensures Truthy(ref) ==> r.to == Routes.BuildRoute("USER_FORM_VIEW", slug) + "?ref=" + ref.value
    ensures !Truthy(ref) ==> r.to == Routes.BuildRoute("USER_FORM_VIEW", slug)
  {
    var target := "/user/form/" + slug;
    Navigation(if Truthy(ref) then target + "?ref=" + ref.value else target, true)
  }

  /**
   * An affiliate link, `/forms/<slug>?ref=<code>`, is the redirect route of
   * its slug, and arriving there leads to the form page of the same slug
   * with the same code, which reads `undefined` when the affiliate has none;
   * an empty code is dropped on the way.
   */
  lemma AffiliateLinkLands(a: AffiliateLinks.Affiliate, origin: string)
    ensures var slug := AffiliateLinks.LinkSlug(a);
      var code := AffiliateLinks.TemplateText(a.affiliateCode);
      origin + "/forms/" + slug + "?ref=" + code == origin + Routes.BuildRoute("FORM_REDIRECT", slug) + "?ref=" + code
      && Target(slug, Some(code)).to
         == Routes.BuildRoute("USER_FORM_VIEW", slug) + (if code != "" then "?ref=" + code else "")
  {
    var slug := AffiliateLinks.LinkSlug(a);
    var code := AffiliateLinks.TemplateText(a.affiliateCode);
    assert origin + "/forms/" + slug + "?ref=" + code == origin + ("/forms/" + slug) + "?ref=" + code;
  }
}
