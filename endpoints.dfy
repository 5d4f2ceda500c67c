/**
 * `src/config/endpoints.js`: the backend endpoints, either fixed paths or
 * builders that place one parameter between a prefix and a suffix.
 */
module Endpoints {
  datatype Endpoint = Fixed(path: string) | Builder(prefix: string, suffix: string)

  const FormList := Fixed("/forms")
  const FormCreate := Fixed("/forms")
  const FormUpdate := Builder("/forms/", "")
  const FormDelete := Builder("/forms/", "")
  const FormPublic := Builder("/public/forms/", "")
  const FormSubmissions := Builder("/forms/", "/submissions")
  const UserForms := Fixed("/user/forms")
  const UserSearch := Builder("/user/forms?search=", "")

  const CategoryList := Fixed("/categories")
  const CategoryCreate := Fixed("/categories")
  const CategoryUpdate := Builder("/categories/", "")
  const CategoryDelete := Builder("/categories/", "")

  const AffiliateLeaderboard := Fixed("/affiliates/leaderboard")
  const AffiliateMyStats := Fixed("/affiliates/my/statistics")

  const AuthLogin := Fixed("/login")
  const AuthRegister := Fixed("/register")
  const AuthLogout := Fixed("/logout")
  const AuthRefresh := Fixed("/refresh")

  /** `buildEndpoint(endpoint, params)`: builders are applied, fixed paths returned as they are. */
  function BuildEndpoint(e: Endpoint, param: string): (r: string)
    ensures e.Fixed? ==> r == e.path
    ensures e.Builder? ==>
      |r| == |e.prefix| + |param| + |e.suffix|
      && r[..|e.prefix|] == e.prefix && r[|e.prefix|..|e.prefix| + |param|] == param && r[|e.prefix| + |param|..] == e.suffix
  {
    match e
    case Fixed(path) => path
    case Builder(prefix, suffix) => prefix + param + suffix
  }

  /**
   * `withQueryParams(endpoint, params)`, given the query string
   * `URLSearchParams` encodes the parameters into.
   */
  function WithQuery(endpoint: string, query: string): (r: string)
    ensures query == "" ==> r == endpoint
    ensures query != "" ==>
      |r| == |endpoint| + 1 + |query| && r[..|endpoint|] == endpoint
      && r[|endpoint|] == '?' && r[|endpoint| + 1..] == query
  {
    if query != "" then endpoint + "?" + query else endpoint
  }

  /** The form and category update and delete endpoints coincide; submissions sit below the form. */
  lemma {:induction false} EndpointRelations(id: string, slug: string)
    ensures BuildEndpoint(FormUpdate, id) == BuildEndpoint(FormDelete, id) == "/forms/" + id
    ensures BuildEndpoint(FormSubmissions, id) == BuildEndpoint(FormUpdate, id) + "/submissions"
    ensures BuildEndpoint(CategoryUpdate, id) == BuildEndpoint(CategoryDelete, id) == "/categories/" + id
    ensures BuildEndpoint(UserSearch, slug) == UserForms.path + "?search=" + slug
  {
    assert "/user/forms?search=" + slug + "" == "/user/forms" + "?search=" + slug;
  }
}
