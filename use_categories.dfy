/**
 * `src/hooks/useCategories.js`: the folder (category) list state. Create
 * and update pass the schema gate before any request is built; a deletion
 * takes effect only after the service has accepted it.
 */
module UseCategories {
  import opened Wrappers
  import opened JsStrings
  import opened Slug
  import opened Lists
  import opened Zod
  import opened CategorySchema
  import FormBuilder

  /** The message shown when the first validation error carries none. */
  const InvalidData := "Data kategori tidak valid"

  /** What the caller hands to create or update; `isActive` is `None` when left out. */
  datatype CategoryData = CategoryData(input: CategoryInput, isActive: Option<bool>)

  /** `{...validation.data, slug, is_active}`. */
  datatype CategoryPayload = CategoryPayload(category: Category, slug: string, isActive: bool)

  /** `validation.errors[0]?.message || 'Data kategori tidak valid'`. */
  function FirstMessage(errors: seq<FieldError>): (r: string)
    ensures r != ""
    ensures errors != [] && errors[0].message != "" ==> r == errors[0].message
  {
    if errors != [] && errors[0].message != "" then errors[0].message else InvalidData
  }

  /**
   * The gate and payload shared by `createCategory` and `updateCategory`:
   * invalid data throws the first validation message before the service is
   * called; valid data gives the parsed category, the slug of the name as
   * given, and the active flag.
   */
  function CategoryRequest(data: CategoryData, isActive: bool): (r: Result<CategoryPayload, string>)
    ensures r.Ok? <==> Accepted(data.input)
    ensures r.Err? ==> r.error == FirstMessage(ValidateCategory(data.input).errors)
    ensures r.Ok? ==>
      r.value.category == ValidateCategory(data.input).data
      && r.value.category.name == Trim(data.input.name.value)
      && r.value.slug == BaseSlug(data.input.name.value)
      && AllIn(r.value.slug, IsSlugChar)
      && r.value.isActive == isActive
  {
    match ValidateCategory(data.input)
    case Invalid(errors) => Err(FirstMessage(errors))
    case Valid(category) => Ok(CategoryPayload(category, BaseSlug(data.input.name.value), isActive))
  }

  /** `createCategory`: a new category is always active. */
  function CreatePayload(data: CategoryData): (r: Result<CategoryPayload, string>)
    ensures r.Ok? <==> Accepted(data.input)
    ensures r.Ok? ==> r.value.isActive && r.value.slug == BaseSlug(data.input.name.value)
    ensures r.Err? ==> r.error != ""
  {
    CategoryRequest(data, true)
  }

  /** `updateCategory`: the category stays active unless the caller passed `is_active: false`. */
  function UpdatePayload(data: CategoryData): (r: Result<CategoryPayload, string>)
    ensures r.Ok? <==> Accepted(data.input)
    ensures r.Ok? ==> (r.value.isActive <==> data.isActive != Some(false))
    ensures r.Err? ==> r.error != ""
  {
    CategoryRequest(data, data.isActive != Some(false))
  }

  /** The hook's state: the category records, their names and the last load error. */
  datatype CategoriesState = CategoriesState(categories: seq<FormBuilder.Category>, names: seq<string>, error: Option<string>)

  function Names(categories: seq<FormBuilder.Category>): (r: seq<string>)
    ensures |r| == |categories|
    ensures forall i :: 0 <= i < |categories| ==> r[i] == categories[i].name
  {
    seq(|categories|, i requires 0 <= i < |categories| => categories[i].name)
  }

  /** `loadCategories`: the records and their names, or on a failure both lists empty and the error kept. */
  function LoadCategories(reply: Result<seq<FormBuilder.Category>, string>): (r: CategoriesState)
    ensures reply.Ok? ==> r == CategoriesState(reply.value, Names(reply.value), None)
    ensures reply.Err? ==> r == CategoriesState([], [], Some(reply.error))
  {
    match reply
    case Ok(categories) => CategoriesState(categories, Names(categories), None)
    case Err(message) => CategoriesState([], [], Some(message))
  }

  /** The field a lookup compares: `getCategoryById` uses the id, `getCategoryByName` the name. */
  datatype Key = ById | ByName

  /** The field of a category a lookup compares. */
  function KeyOf(c: FormBuilder.Category, key: Key): string
  {
    match key
    case ById => c.id
    case ByName => c.name
  }

  /** `categories.find(c => c.id === value)` or `categories.find(c => c.name === value)`. */
  function FindBy(categories: seq<FormBuilder.Category>, key: Key, value: string): (r: Option<FormBuilder.Category>)
    ensures r.Some? ==> r.value in categories && KeyOf(r.value, key) == value
    ensures r.None? <==> forall i :: 0 <= i < |categories| ==> KeyOf(categories[i], key) != value
    ensures r.Some? ==>
      exists k :: 0 <= k < |categories| && categories[k] == r.value
        && forall j :: 0 <= j < k ==> KeyOf(categories[j], key) != value
    decreases |categories|
  {
    if categories == [] then None
    else if KeyOf(categories[0], key) == value then Some(categories[0])
    else
      var r := FindBy(categories[1..], key, value);
      assert r.Some? ==>
        exists k :: 0 <= k < |categories| && categories[k] == r.value
          && forall j :: 0 <= j < k ==> KeyOf(categories[j], key) != value by {
        if r.Some? {
          var k :| 0 <= k < |categories[1..]| && categories[1..][k] == r.value
            && forall j :: 0 <= j < k ==> KeyOf(categories[1..][j], key) != value;
          assert categories[k + 1] == r.value;
        }
      }
      r
  }

  predicate IsNotCategory(id: string, c: FormBuilder.Category) { c.id != id }
  predicate IsNotName(name: Option<string>, n: string) { name != Some(n) }

  /**
   * `deleteCategory`: once the service has deleted it, the category with
   * that id leaves the records and its name leaves the name list (every
   * entry equal to it); an id the records do not hold leaves the names as
   * they were. A failed deletion changes nothing.
   */
  function DeleteCategory(state: CategoriesState, id: string, deleted: bool): (r: CategoriesState)
    ensures !deleted ==> r == state
    ensures deleted ==> r.error == state.error
    ensures deleted ==> forall c :: c in r.categories <==> c in state.categories && c.id != id
    ensures deleted && FindBy(state.categories, ById, id).Some? ==>
      forall n :: n in r.names <==> n in state.names && n != FindBy(state.categories, ById, id).value.name
    ensures deleted && FindBy(state.categories, ById, id).None? ==> r.names == state.names
  {
    if !deleted then state
    else
      var gone := FindBy(state.categories, ById, id);
      var name := if gone.Some? then Some(gone.value.name) else None;
      assert gone.None? ==> Keep(state.names, n => IsNotName(name, n)) == state.names by {
        if gone.None? {
          KeepAll(state.names, n => IsNotName(name, n));
        }
      }
      state.(categories := Keep(state.categories, c => IsNotCategory(id, c)),
             names := Keep(state.names, n => IsNotName(name, n)))
  }

  /**
   * With one record per id and per name, the name list after a load and a
   * deletion still lists exactly the remaining records' names.
   */
  lemma DeleteKeepsNames(categories: seq<FormBuilder.Category>, id: string)
    requires forall i, j :: 0 <= i < j < |categories| ==> categories[i].id != categories[j].id
    requires forall i, j :: 0 <= i < j < |categories| ==> categories[i].name != categories[j].name
    ensures var r := DeleteCategory(LoadCategories(Ok(categories)), id, true);
      forall n :: n in r.names <==> exists c :: c in r.categories && c.name == n
  {
    var r := DeleteCategory(LoadCategories(Ok(categories)), id, true);
    forall n ensures n in r.names <==> exists c :: c in r.categories && c.name == n {
      NameKept(categories, id, n, r);
    }
  }

  /** A name left in the list belongs to a remaining record. */
  lemma NameKept(categories: seq<FormBuilder.Category>, id: string, n: string, r: CategoriesState)
    requires forall i, j :: 0 <= i < j < |categories| ==> categories[i].id != categories[j].id
    requires forall i, j :: 0 <= i < j < |categories| ==> categories[i].name != categories[j].name
    requires r == DeleteCategory(LoadCategories(Ok(categories)), id, true)
    ensures n in r.names <==> exists c :: c in r.categories && c.name == n
  {
    if n in r.names {
      NameKeptOwner(categories, id, n, r);
    }
    if exists c :: c in r.categories && c.name == n {
      var c :| c in r.categories && c.name == n;
      OwnerNameKept(categories, id, c, r);
    }
  }

  lemma NameKeptOwner(categories: seq<FormBuilder.Category>, id: string, n: string, r: CategoriesState)
    requires forall i, j :: 0 <= i < j < |categories| ==> categories[i].id != categories[j].id
    requires forall i, j :: 0 <= i < j < |categories| ==> categories[i].name != categories[j].name
    requires r == DeleteCategory(LoadCategories(Ok(categories)), id, true)
    requires n in r.names
    ensures exists c :: c in r.categories && c.name == n
  {
    var names := Names(categories);
    var gone := FindBy(categories, ById, id);
    assert n in names;
    var i :| 0 <= i < |names| && names[i] == n;
    assert categories[i].name == n;
    if gone.Some? {
      var g :| 0 <= g < |categories| && categories[g] == gone.value;
      assert categories[g].name != n && categories[g].id == id;
      assert g != i;
    }
    assert categories[i].id != id;
    assert categories[i] in r.categories;
  }

  lemma OwnerNameKept(categories: seq<FormBuilder.Category>, id: string, c: FormBuilder.Category, r: CategoriesState)
    requires forall i, j :: 0 <= i < j < |categories| ==> categories[i].name != categories[j].name
    requires r == DeleteCategory(LoadCategories(Ok(categories)), id, true)
    requires c in r.categories
    ensures c.name in r.names
  {
    var state := LoadCategories(Ok(categories));
    assert state.categories == categories;
    var names := state.names;
    var gone := FindBy(categories, ById, id);
    assert c in categories && c.id != id;
    var i :| 0 <= i < |categories| && categories[i] == c;
    assert names[i] == c.name;
    if gone.Some? {
      var g :| 0 <= g < |categories| && categories[g] == gone.value;
      assert categories[g].name != categories[i].name;
    }
  }
}
