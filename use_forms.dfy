/**
 * `src/hooks/useForms.js`: the form list state of the admin pages. A form
 * record from the backend becomes a list row (the same mapping the form
 * list page applies), a failed load empties the list, and a deletion takes
 * effect only after the backend has accepted it.
 */
module UseForms {
  import opened Wrappers
  import opened Storage
  import opened Lists
  import Forms

  /**
   * A form record of the list endpoint; `""` and `0` stand for absent
   * attributes, `categoryName` for `form.category?.name`.
   */
  datatype ListedForm = ListedForm(
    id: string, slug: Option<string>, title: string, name: string,
    categoryName: string, folder: string,
    submissionsCount: int, responsesCount: int, createdAt: string)

  /**
   * The row of one listed form: the title falls back to the name; the
   * folder to the category name, then the record's own folder, then
   * `Uncategorized`; the count to `submissions_count`, then
   * `responses_count`, then 0.
   */
  function MapForm(f: ListedForm): (r: CachedForm)
    ensures r.id == f.id && r.slug == f.slug && r.createdAt == f.createdAt
    ensures f.title != "" ==> r.title == f.title
    ensures f.title == "" ==> r.title == f.name
    ensures r.folder != ""
    ensures f.categoryName != "" ==> r.folder == f.categoryName
    ensures f.categoryName == "" && f.folder != "" ==> r.folder == f.folder
    ensures f.categoryName == "" && f.folder == "" ==> r.folder == Forms.Uncategorized
    ensures f.submissionsCount != 0 ==> r.submissions == f.submissionsCount
    ensures f.submissionsCount == 0 ==> r.submissions == f.responsesCount
  {
    CachedForm(
      f.id, f.slug,
      if f.title != "" then f.title else f.name,
      if f.categoryName != "" then f.categoryName else if f.folder != "" then f.folder else Forms.Uncategorized,
      if f.submissionsCount != 0 then f.submissionsCount else f.responsesCount,
      f.createdAt)
  }

  /** `response.data.map(...)`: one row per record, in the same order. */
  function MapForms(forms: seq<ListedForm>): (r: seq<CachedForm>)
    ensures |r| == |forms|
    ensures forall i :: 0 <= i < |forms| ==> r[i] == MapForm(forms[i])
  {
    seq(|forms|, i requires 0 <= i < |forms| => MapForm(forms[i]))
  }

  /** The hook's state: the rows and the last load error. */
  datatype FormsState = FormsState(forms: seq<CachedForm>, error: Option<string>)

  /**
   * `loadForms`: the reply's records mapped, or on a failure no rows and
   * the error's message (the message the error handler derives is given).
   */
  function LoadForms(reply: Result<seq<ListedForm>, string>): (r: FormsState)
    ensures reply.Ok? ==> r.error == None && r.forms == MapForms(reply.value)
    ensures reply.Err? ==> r.forms == [] && r.error == Some(reply.error)
  {
    match reply
    case Ok(forms) => FormsState(MapForms(forms), None)
    case Err(message) => FormsState([], Some(message))
  }

  predicate IsNotForm(id: string, f: CachedForm) { f.id != id }

  /** `forms.filter(f => f.id !== formId)`. */
  function WithoutForm(forms: seq<CachedForm>, id: string): (r: seq<CachedForm>)
    ensures forall f :: f in r <==> f in forms && f.id != id
    ensures r == Keep(forms, f => IsNotForm(id, f))
  {
    Keep(forms, f => IsNotForm(id, f))
  }

  /** A deletion of an id the list does not hold changes nothing. */
  lemma WithoutAbsentForm(forms: seq<CachedForm>, id: string)
    requires forall i :: 0 <= i < |forms| ==> forms[i].id != id
    ensures WithoutForm(forms, id) == forms
  {
    KeepAll(forms, f => IsNotForm(id, f));
  }

  /**
   * `deleteForm`: the rows lose exactly the form with that id once the
   * service has deleted it; a failed deletion leaves them as they were.
   */
  function DeleteForm(state: FormsState, id: string, deleted: bool): (r: FormsState)
    ensures !deleted ==> r == state
    ensures deleted ==> r.error == state.error
    ensures deleted ==> forall f :: f in r.forms <==> f in state.forms && f.id != id
    ensures |r.forms| <= |state.forms|
  {
    if deleted then state.(forms := WithoutForm(state.forms, id)) else state
  }

  /** The rows keep the loaded order: deleting one row keeps the rows before and after it. */
  lemma DeleteKeepsOrder(before: seq<CachedForm>, row: CachedForm, after: seq<CachedForm>)
    requires forall i :: 0 <= i < |before| ==> before[i].id != row.id
    requires forall i :: 0 <= i < |after| ==> after[i].id != row.id
    ensures WithoutForm(before + [row] + after, row.id) == before + after
  {
    var p := f => IsNotForm(row.id, f);
    assert WithoutForm(before + [row] + after, row.id) == Keep(before + [row] + after, p);
    KeepAppend(before + [row], after, p);
    KeepAppend(before, [row], p);
    KeepAll(before, p);
    KeepAll(after, p);
    assert Keep([row], p) == [] + Keep([], p);
    assert Keep(before + [row], p) == before;
    assert Keep(before + [row] + after, p) == before + after;
  }
}
