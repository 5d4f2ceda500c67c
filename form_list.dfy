/**
 * `src/pages/FormList.jsx`: the admin form list. It groups the form rows by
 * folder, guards and builds the folder (category) requests, refuses to
 * delete a folder that still holds forms, drops a deleted form from the
 * rows and the cache, and on first load clears caches left by the demo data.
 */
module FormList {
  import opened Wrappers
  import opened JsStrings
  import opened Slug
  import opened Lists
  import opened Storage
  import UseForms

  // ----- groupedForms -----

  predicate InFolder(folder: string, f: CachedForm) { f.folder == folder }

  /** The rows filed under one folder, in list order. */
  function Group(forms: seq<CachedForm>, folder: string): (r: seq<CachedForm>)
    ensures forall f :: f in r <==> f in forms && f.folder == folder
    ensures IsSubsequence(r, forms)
  {
    KeepSubsequence(forms, f => InFolder(folder, f));
    Keep(forms, f => InFolder(folder, f))
  }

  /** `groupedForms`: one entry per folder name, holding that folder's rows. */
  function Grouped(folders: seq<string>, forms: seq<CachedForm>): (r: map<string, seq<CachedForm>>)
    ensures r.Keys == set g | g in folders
    ensures forall g :: g in r ==> r[g] == Group(forms, g)
  {
    map g | g in folders :: Group(forms, g)
  }

  /**
   * A row appears under a folder exactly when that folder is listed and
   * the row is filed under it; a row whose folder is not listed appears in
   * no group.
   */
  lemma GroupMembership(folders: seq<string>, forms: seq<CachedForm>, f: CachedForm, g: string)
    ensures (g in Grouped(folders, forms) && f in Grouped(folders, forms)[g])
      <==> (g in folders && f in forms && f.folder == g)
    ensures f.folder !in folders ==> forall h :: h in Grouped(folders, forms) ==> f !in Grouped(folders, forms)[h]
  {
  }

  /** The `reduce` over the folder names that fills the `groupedForms` object. */
  method GroupedForms(folders: seq<string>, forms: seq<CachedForm>) returns (groups: map<string, seq<CachedForm>>)
    ensures groups == Grouped(folders, forms)
  {
    groups := map[];
    var i := 0;
    while i < |folders|
      invariant 0 <= i <= |folders|
      invariant groups.Keys == set g | g in folders[..i]
      invariant forall g :: g in groups ==> groups[g] == Group(forms, g)
    {
      groups := groups[folders[i] := Group(forms, folders[i])];
      assert folders[..i + 1] == folders[..i] + [folders[i]];
      i := i + 1;
    }
    assert folders[..i] == folders;
  }

  // ----- folder requests -----

  const FolderNameRequired := "Nama folder harus diisi."
  const DefaultFolderIcon := "Folder"
  const DefaultFolderColor := "#F59E0B"

  /** The folder dialog's fields; `""` stands for an absent value, `isActive` is `None` when unset. */
  datatype FolderDraft = FolderDraft(id: string, name: string, description: string, icon: string, color: string, isActive: Option<bool>)

  /** The category payload of a create or update. */
  datatype FolderPayload = FolderPayload(name: string, slug: string, description: string, icon: string, color: string, isActive: bool)

  /** A request to the category endpoints. */
  datatype FolderRequest = FolderRequest(verb: string, endpoint: string, payload: FolderPayload)

  /** `description || 'Kategori ' + name`, with the name as typed. */
  function FolderDescription(draft: FolderDraft): (r: string)
    ensures draft.description != "" ==> r == draft.description
    ensures draft.description == "" ==> r == "Kategori " + draft.name
  {
    if draft.description != "" then draft.description else "Kategori " + draft.name
  }

  /**
   * `createFolder`: a name that is blank after trimming is refused before
   * any request; otherwise a POST carrying the trimmed name, the slug of
   * the name, the description or its default, and an active flag.
   */
  function CreateFolder(draft: FolderDraft): (r: Result<FolderRequest, string>)
    ensures r.Err? <==> Trim(draft.name) == ""
    ensures r.Err? ==> r.error == FolderNameRequired
    ensures r.Ok? ==>
      r.value.verb == "POST" && r.value.endpoint == "/api/categories"
      && r.value.payload.name == Trim(draft.name) && r.value.payload.name != ""
      && r.value.payload.slug == BaseSlug(draft.name) && AllIn(r.value.payload.slug, IsSlugChar)
      && r.value.payload.description == FolderDescription(draft)
      && r.value.payload.icon == draft.icon && r.value.payload.color == draft.color
      && r.value.payload.isActive
  {
    if Trim(draft.name) == "" then Err(FolderNameRequired)
    else Ok(FolderRequest("POST", "/api/categories",
      FolderPayload(Trim(draft.name), BaseSlug(draft.name), FolderDescription(draft), draft.icon, draft.color, true)))
  }

  /**
   * `updateFolder`: nothing happens without a folder being edited or with
   * a blank name; otherwise a PUT to the folder's own endpoint, with the
   * icon and colour defaulted and the folder active unless explicitly
   * deactivated.
   */
  function UpdateFolder(editing: Option<FolderDraft>): (r: Option<FolderRequest>)
    ensures r.Some? <==> editing.Some? && Trim(editing.value.name) != ""
    ensures r.Some? ==>
      var draft := editing.value;
      r.value.verb == "PUT" && r.value.endpoint == "/api/categories/" + draft.id
      && r.value.payload.name == Trim(draft.name) && r.value.payload.slug == BaseSlug(draft.name)
      && r.value.payload.description == FolderDescription(draft)
      && r.value.payload.icon == (if draft.icon != "" then draft.icon else DefaultFolderIcon)
      && r.value.payload.color == (if draft.color != "" then draft.color else DefaultFolderColor)
      && (r.value.payload.isActive <==> draft.isActive != Some(false))
  {
    if editing.None? || Trim(editing.value.name) == "" then None
    else
      var draft := editing.value;
      Some(FolderRequest("PUT", "/api/categories/" + draft.id,
        FolderPayload(Trim(draft.name), BaseSlug(draft.name), FolderDescription(draft),
          if draft.icon != "" then draft.icon else DefaultFolderIcon,
          if draft.color != "" then draft.color else DefaultFolderColor,
          draft.isActive != Some(false))))
  }

  /** Both folder requests derive the same slug, and a slug is its own slug. */
  lemma FolderSlugsAgree(draft: FolderDraft)
    requires Trim(draft.name) != ""
    ensures CreateFolder(draft).value.payload.slug == UpdateFolder(Some(draft)).value.payload.slug
    ensures BaseSlug(CreateFolder(draft).value.payload.slug) == CreateFolder(draft).value.payload.slug
  {
    BaseSlugIdempotent(draft.name);
  }

  // ----- deleteFolder -----

  /** How `deleteFolder` ends before the reply: blocked by the forms it holds, cancelled, or a DELETE. */
  datatype FolderDeletion = Blocked(count: nat) | Cancelled | Delete(endpoint: string)

  /**
   * `deleteFolder`: while any row is filed under the folder, the deletion
   * is refused with that count and no request; otherwise it waits for the
   * user's confirmation before the DELETE.
   */
  function DeleteFolder(forms: seq<CachedForm>, categoryId: string, categoryName: string, confirmed: bool): (r: FolderDeletion)
    ensures r.Blocked? <==> exists f :: f in forms && f.folder == categoryName
    ensures r.Blocked? ==> r.count == |Group(forms, categoryName)| && r.count > 0
    ensures r.Cancelled? <==> (forall f :: f in forms ==> f.folder != categoryName) && !confirmed
    ensures r.Delete? ==> r.endpoint == "/api/categories/" + categoryId
  {
    var inFolder := Group(forms, categoryName);
    if |inFolder| > 0 then
      assert inFolder[0] in inFolder;
      Blocked(|inFolder|)
    else if !confirmed then
      Cancelled
    else
      Delete("/api/categories/" + categoryId)
  }

  // ----- loading, deleting a form, clearing old data -----

  /**
   * `loadForms`: the backend's records become the rows and are cached; a
   * failure leaves no rows and the cache as it was.
   */
  method LoadForms(b: Browser, reply: Result<seq<UseForms.ListedForm>, string>) returns (forms: seq<CachedForm>)
    requires b.Valid()
    modifies b
    ensures b.Valid() && b.jar == old(b.jar) && b.location == old(b.location)
    ensures reply.Ok? ==> forms == UseForms.MapForms(reply.value) && b.local == old(b.local)[FormsKey := FormsDoc(forms)]
    ensures reply.Err? ==> forms == [] && b.local == old(b.local)
  {
    if reply.Err? {
      return [];
    }
    forms := UseForms.MapForms(reply.value);
    b.SetItem(FormsKey, FormsDoc(forms));
  }

  /**
   * `loadFolders`: the folder names are the categories' names, also
   * cached; a failure leaves no folders and the cache as it was.
   */
  method LoadFolders(b: Browser, reply: Result<seq<string>, string>) returns (folders: seq<string>)
    requires b.Valid()
    modifies b
    ensures b.Valid() && b.jar == old(b.jar) && b.location == old(b.location)
    ensures reply.Ok? ==> folders == reply.value && b.local == old(b.local)[FoldersKey := FoldersDoc(folders)]
    ensures reply.Err? ==> folders == [] && b.local == old(b.local)
  {
    if reply.Err? {
      return [];
    }
    folders := reply.value;
    b.SetItem(FoldersKey, FoldersDoc(folders));
  }

  /**
   * `deleteForm`: after the backend has deleted it, the form leaves the
   * rows and the cache is rewritten with the remaining rows; a failed
   * deletion changes neither.
   */
  method DeleteForm(b: Browser, forms: seq<CachedForm>, formId: string, deleted: bool) returns (r: seq<CachedForm>)
    requires b.Valid()
    modifies b
    ensures b.Valid() && b.jar == old(b.jar) && b.location == old(b.location)
    ensures !deleted ==> r == forms && b.local == old(b.local)
    ensures deleted ==> r == UseForms.WithoutForm(forms, formId) && b.local == old(b.local)[FormsKey := FormsDoc(r)]
    ensures forall f :: f in r <==> f in forms && (deleted ==> f.id != formId)
  {
    if !deleted {
      return forms;
    }
    r := UseForms.WithoutForm(forms, formId);
    b.SetItem(FormsKey, FormsDoc(r));
  }

  predicate IsDemoForm(f: CachedForm) { f.id == "demo" || f.submissions == 60000 }

  /**
   * Whether the cached forms entry is dropped: a form list holding a demo
   * form; any other list is kept; text that does not parse, or a document
   * that is not a list, makes the demo test throw and is dropped too.
   * `Text` stands for every stored value that is none of the modelled
   * documents, so it is always dropped here, although a JSON array of some
   * other shape held in it would be kept by the same test.
   */
  predicate StaleForms(item: Item)
  {
    match item
    case FormsDoc(forms) => exists f :: f in forms && IsDemoForm(f)
    case FoldersDoc(_) => false
    case AnnouncementsDoc(_) => false
    case ResponsesDoc(_) => false
    case _ => true
  }

  /**
   * Whether the cached folders entry is dropped: a name list with a demo
   * folder, or anything that is not a list. As for `StaleForms`, `Text` is
   * always dropped, although a JSON string held in it would be checked by
   * substring and kept when it names neither demo folder.
   */
  predicate StaleFolders(item: Item)
  {
    match item
    case FoldersDoc(folders) => "Kelas Gratis" in folders || "Program Beasiswa" in folders
    case FormsDoc(_) => false
    case AnnouncementsDoc(_) => false
    case ResponsesDoc(_) => false
    case _ => true
  }

  /**
   * The store after `clearOldData`: each of the two caches is removed
   * exactly when it is set (non-empty) and stale; nothing else changes.
   */
  function ClearedStore(local: Store): (r: Store)
    ensures FormsKey in r <==> FormsKey in local && !(Present(local, FormsKey) && StaleForms(local[FormsKey]))
    ensures FoldersKey in r <==> FoldersKey in local && !(Present(local, FoldersKey) && StaleFolders(local[FoldersKey]))
    ensures forall k :: k in r ==> k in local && r[k] == local[k]
    ensures forall k :: k in local && k != FormsKey && k != FoldersKey ==> k in r
  {
    var afterForms := if Present(local, FormsKey) && StaleForms(local[FormsKey]) then local - {FormsKey} else local;
    if Present(local, FoldersKey) && StaleFolders(local[FoldersKey]) then afterForms - {FoldersKey} else afterForms
  }

  /** Clearing old data a second time removes nothing more. */
  lemma ClearOldDataIdempotent(local: Store)
    ensures ClearedStore(ClearedStore(local)) == ClearedStore(local)
  {
  }

  /** `clearOldData`: the forms cache is checked first, then the folders cache. */
  method ClearOldData(b: Browser)
    requires b.Valid()
    modifies b
    ensures b.Valid() && b.jar == old(b.jar) && b.location == old(b.location)
    ensures b.local == ClearedStore(old(b.local))
  {
    if Present(b.local, FormsKey) && StaleForms(b.local[FormsKey]) {
      b.RemoveItem(FormsKey);
    }
    if Present(b.local, FoldersKey) && StaleFolders(b.local[FoldersKey]) {
      b.RemoveItem(FoldersKey);
    }
  }
}
