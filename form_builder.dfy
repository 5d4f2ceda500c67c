/**
 * `src/pages/FormBuilderEditor.jsx`: the editor's updaters on `formData`,
 * the drag reorder of sections, the transform of the edited form into the
 * backend payload, the transform of a loaded backend form into `formData`,
 * and `saveForm`.
 */
module FormBuilder {
  import opened Wrappers
  import opened Lists
  import opened JsStrings
  import opened Slug
  import opened Forms
  import opened Storage
  import Endpoints
  import Routes

  // ----- sections -----

  /** `addSection`: one section named after the new count, with the default icon, at the end. */
  function AddSection(form: FormData, newId: string): (r: FormData)
    ensures |r.sections| == |form.sections| + 1 && r.sections[..|form.sections|] == form.sections
    ensures r.sections[|form.sections|] == Section(newId, "Section Baru " + IntToString(|form.sections| + 1), DefaultIcon)
    ensures r == form.(sections := r.sections)
  {
    form.(sections := form.sections + [Section(newId, "Section Baru " + IntToString(|form.sections| + 1), DefaultIcon)])
  }

  /** `updateSectionName`: the sections with that id get the name; nothing else changes. */
  function UpdateSectionName(form: FormData, id: string, name: string): (r: FormData)
    ensures |r.sections| == |form.sections| && r == form.(sections := r.sections)
    ensures forall i :: 0 <= i < |r.sections| ==>
      r.sections[i].id == form.sections[i].id && r.sections[i].icon == form.sections[i].icon
    ensures forall i :: 0 <= i < |r.sections| && form.sections[i].id != id ==> r.sections[i] == form.sections[i]
    ensures forall i :: 0 <= i < |r.sections| && form.sections[i].id == id ==> r.sections[i].name == name
  {
    var sections := form.sections;
    form.(sections := seq(|sections|, i requires 0 <= i < |sections| =>
      if sections[i].id == id then sections[i].(name := name) else sections[i]))
  }

  /** `updateSectionIcon`: the sections with that id get the icon; nothing else changes. */
  function UpdateSectionIcon(form: FormData, id: string, icon: string): (r: FormData)
    ensures |r.sections| == |form.sections| && r == form.(sections := r.sections)
    ensures forall i :: 0 <= i < |r.sections| ==>
      r.sections[i].id == form.sections[i].id && r.sections[i].name == form.sections[i].name
    ensures forall i :: 0 <= i < |r.sections| && form.sections[i].id != id ==> r.sections[i] == form.sections[i]
    ensures forall i :: 0 <= i < |r.sections| && form.sections[i].id == id ==> r.sections[i].icon == icon
  {
    var sections := form.sections;
    form.(sections := seq(|sections|, i requires 0 <= i < |sections| =>
      if sections[i].id == id then sections[i].(icon := icon) else sections[i]))
  }

  predicate IsNotSection(id: string, s: Section) { s.id != id }

  predicate NotOwnedBy(id: string, f: Field) { f.sectionId != Some(id) }

  /** `deleteSection`: the section goes, and with it every field it owns; the rest keep their order. */
  function DeleteSection(form: FormData, id: string): (r: FormData)
    ensures forall s :: s in r.sections <==> s in form.sections && s.id != id
    ensures forall f :: f in r.fields <==> f in form.fields && f.sectionId != Some(id)
    ensures r.sections == Keep(form.sections, s => IsNotSection(id, s))
    ensures r.fields == Keep(form.fields, f => NotOwnedBy(id, f))
    ensures r == form.(sections := r.sections, fields := r.fields)
  {
    form.(sections := Keep(form.sections, s => IsNotSection(id, s)),
          fields := Keep(form.fields, f => NotOwnedBy(id, f)))
  }

  // ----- fields -----

  /** `addField(sectionId)`: a fresh text field owned by that section, at the end. */
  function AddField(form: FormData, sectionId: string, newId: string): (r: FormData)
    ensures |r.fields| == |form.fields| + 1 && r.fields[..|form.fields|] == form.fields
    ensures r.fields[|form.fields|] == Field(newId, "Field Baru", "text", false, "", "", Some(sectionId))
    ensures r == form.(fields := r.fields)
  {
    form.(fields := form.fields + [Field(newId, "Field Baru", "text", false, "", "", Some(sectionId))])
  }

  /** The one attribute a field editor control changes. */
  datatype FieldPatch =
    | SetCaption(caption: string)
    | SetKind(kind: string)
    | SetRequired(required: bool)
    | SetPlaceholder(placeholder: string)
    | SetOptions(options: string)

  /** `{ ...f, ...updates }`. */
  function PatchField(f: Field, patch: FieldPatch): (r: Field)
    ensures r.id == f.id && r.sectionId == f.sectionId
  {
    match patch
    case SetCaption(c) => f.(caption := c)
    case SetKind(k) => f.(kind := k)
    case SetRequired(b) => f.(required := b)
    case SetPlaceholder(p) => f.(placeholder := p)
    case SetOptions(o) => f.(options := o)
  }

  /** `updateField`: only the fields with that id change, keeping their id and owner. */
  function UpdateField(form: FormData, id: string, patch: FieldPatch): (r: FormData)
    ensures |r.fields| == |form.fields| && r == form.(fields := r.fields)
    ensures forall i :: 0 <= i < |r.fields| ==>
      r.fields[i].id == form.fields[i].id && r.fields[i].sectionId == form.fields[i].sectionId
    ensures forall i :: 0 <= i < |r.fields| && form.fields[i].id != id ==> r.fields[i] == form.fields[i]
    ensures forall i :: 0 <= i < |r.fields| && form.fields[i].id == id ==> r.fields[i] == PatchField(form.fields[i], patch)
  {
    var fields := form.fields;
    form.(fields := seq(|fields|, i requires 0 <= i < |fields| =>
      if fields[i].id == id then PatchField(fields[i], patch) else fields[i]))
  }

  predicate IsNotField(id: string, f: Field) { f.id != id }

  /** `deleteField`: only the fields with that id go; the rest keep their order. */
  function DeleteField(form: FormData, id: string): (r: FormData)
    ensures forall f :: f in r.fields <==> f in form.fields && f.id != id
    ensures r.fields == Keep(form.fields, f => IsNotField(id, f))
    ensures r == form.(fields := r.fields)
  {
    form.(fields := Keep(form.fields, f => IsNotField(id, f)))
  }

  // ----- pricing tiers -----

  /** `addPricingTier`: a free placeholder tier at the end. */
  function AddPricingTier(form: FormData, newId: string): (r: FormData)
    ensures |r.pricingTiers| == |form.pricingTiers| + 1 && r.pricingTiers[..|form.pricingTiers|] == form.pricingTiers
    ensures r.pricingTiers[|form.pricingTiers|] == Tier(Str(newId), "Paket Baru", 0, "Deskripsi fitur")
    ensures r == form.(pricingTiers := r.pricingTiers)
  {
    form.(pricingTiers := form.pricingTiers + [Tier(Str(newId), "Paket Baru", 0, "Deskripsi fitur")])
  }

  /** The one attribute a tier editor control changes; a price is typed as text. */
  datatype TierPatch = SetName(name: string) | SetPrice(text: string) | SetFeatures(features: string)

  /** `{ ...t, ...updates }`, the price as `parseInt(value) || 0`. */
  function PatchTier(t: Tier, patch: TierPatch): (r: Tier)
    ensures r.id == t.id
    ensures patch.SetPrice? ==> r.price == ParseIntOrZero(patch.text)
  {
    match patch
    case SetName(n) => t.(name := n)
    case SetPrice(text) => t.(price := ParseIntOrZero(text))
    case SetFeatures(x) => t.(features := x)
  }

  /** `updatePricingTier`: only the tiers with that id change, keeping their id. */
  function UpdatePricingTier(form: FormData, id: Id, patch: TierPatch): (r: FormData)
    ensures |r.pricingTiers| == |form.pricingTiers| && r == form.(pricingTiers := r.pricingTiers)
    ensures forall i :: 0 <= i < |r.pricingTiers| ==> r.pricingTiers[i].id == form.pricingTiers[i].id
    ensures forall i :: 0 <= i < |r.pricingTiers| && form.pricingTiers[i].id != id ==> r.pricingTiers[i] == form.pricingTiers[i]
    ensures forall i :: 0 <= i < |r.pricingTiers| && form.pricingTiers[i].id == id ==>
      r.pricingTiers[i] == PatchTier(form.pricingTiers[i], patch)
  {
    var tiers := form.pricingTiers;
    form.(pricingTiers := seq(|tiers|, i requires 0 <= i < |tiers| =>
      if tiers[i].id == id then PatchTier(tiers[i], patch) else tiers[i]))
  }

  predicate IsNotTier(id: Id, t: Tier) { t.id != id }

  /** `deletePricingTier`: only the tiers with that id go; the rest keep their order. */
  function DeletePricingTier(form: FormData, id: Id): (r: FormData)
    ensures forall t :: t in r.pricingTiers <==> t in form.pricingTiers && t.id != id
    ensures r.pricingTiers == Keep(form.pricingTiers, t => IsNotTier(id, t))
    ensures r == form.(pricingTiers := r.pricingTiers)
  {
    form.(pricingTiers := Keep(form.pricingTiers, t => IsNotTier(id, t)))
  }

  /** Removing a field just added to a form that had no field with that id gives the form back. */
  lemma AddThenDeleteField(form: FormData, sectionId: string, newId: string)
    requires forall i :: 0 <= i < |form.fields| ==> form.fields[i].id != newId
    ensures DeleteField(AddField(form, sectionId, newId), newId) == form
  {
    var added := AddField(form, sectionId, newId);
    assert added.fields == form.fields + [added.fields[|form.fields|]];
    KeepAppend(form.fields, [added.fields[|form.fields|]], f => IsNotField(newId, f));
    KeepAll(form.fields, f => IsNotField(newId, f));
  }

  // ----- drag reorder -----

  /** `findIndex(s => s.id === id)`, for an id that is present. */
  function IndexOfSection(sections: seq<Section>, id: string): (r: nat)
    requires exists i :: 0 <= i < |sections| && sections[i].id == id
    ensures r < |sections| && sections[r].id == id
    ensures forall k :: 0 <= k < r ==> sections[k].id != id
  {
    if sections[0].id == id then 0
    else
      assert exists i :: 0 <= i < |sections[1..]| && sections[1..][i].id == id by {
        var i :| 0 <= i < |sections| && sections[i].id == id;
        assert sections[1..][i - 1] == sections[i];
      }
      1 + IndexOfSection(sections[1..], id)
  }

  /** dnd-kit's `arrayMove`: the element at `from` is taken out and put back in at `to`. */
  function ArrayMove<T>(xs: seq<T>, from: nat, to: nat): (r: seq<T>)
    requires from < |xs| && to < |xs|
    ensures |r| == |xs| && multiset(r) == multiset(xs)
    ensures r[to] == xs[from]
    ensures r[..to] + r[to + 1..] == xs[..from] + xs[from + 1..]
  {
    var rest := xs[..from] + xs[from + 1..];
    assert xs == xs[..from] + [xs[from]] + xs[from + 1..];
    var r := rest[..to] + [xs[from]] + rest[to..];
    assert rest == rest[..to] + rest[to..];
    assert r[..to] == rest[..to] && r[to + 1..] == rest[to..];
    calc {
      multiset(r);
      multiset(rest[..to]) + multiset{xs[from]} + multiset(rest[to..]);
      multiset(rest) + multiset{xs[from]};
      multiset(xs[..from]) + multiset(xs[from + 1..]) + multiset{xs[from]};
      multiset(xs);
    }
    r
  }

  /** Two lists of one length that agree at `k` and once `k` is taken out are equal. */
  lemma SameApartFrom<T>(a: seq<T>, b: seq<T>, k: nat)
    requires k < |a| == |b| && a[k] == b[k]
    requires a[..k] + a[k + 1..] == b[..k] + b[k + 1..]
    ensures a == b
  {
    var ra, rb := a[..k] + a[k + 1..], b[..k] + b[k + 1..];
    forall i | 0 <= i < |a| ensures a[i] == b[i] {
      if i < k {
        assert a[i] == ra[i] && b[i] == rb[i];
      } else if i > k {
        assert a[i] == ra[i - 1] && b[i] == rb[i - 1];
      }
    }
  }

  /** Moving an element back to where it came from restores the list. */
  lemma MoveBack<T>(xs: seq<T>, from: nat, to: nat)
    requires from < |xs| && to < |xs|
    ensures ArrayMove(ArrayMove(xs, from, to), to, from) == xs
  {
    var moved := ArrayMove(xs, from, to);
    var back := ArrayMove(moved, to, from);
    SameApartFrom(back, xs, from);
  }

  /**
   * `handleDragEnd`: dropping a section onto itself changes nothing;
   * otherwise the dragged section takes the place of the one it was dropped on.
   */
  function HandleDragEnd(form: FormData, active: string, over: string): (r: FormData)
    requires exists i :: 0 <= i < |form.sections| && form.sections[i].id == active
    requires exists i :: 0 <= i < |form.sections| && form.sections[i].id == over
    ensures r == form.(sections := r.sections)
    ensures active == over ==> r == form
    ensures |r.sections| == |form.sections| && multiset(r.sections) == multiset(form.sections)
    ensures active != over ==>
      var from := IndexOfSection(form.sections, active);
      var to := IndexOfSection(form.sections, over);
      r.sections[to] == form.sections[from]
      && r.sections[..to] + r.sections[to + 1..] == form.sections[..from] + form.sections[from + 1..]
  {
    if active == over then form
    else
      form.(sections := ArrayMove(form.sections, IndexOfSection(form.sections, active), IndexOfSection(form.sections, over)))
  }

  // ----- the backend payload -----

  /** A category as the editor lists them. */
  datatype Category = Category(id: string, name: string)

  datatype PayloadOption = PayloadOption(value: string, caption: string)

  /** A field of the payload; `emailRule` is `validation_rules: { email: true }`. */
  datatype PayloadField = PayloadField(
    caption: string, name: string, kind: string, placeholder: string, helpText: string,
    isRequired: bool, order: nat, options: Option<seq<PayloadOption>>, emailRule: bool)

  datatype PayloadSection = PayloadSection(title: string, description: string, icon: string, order: nat, fields: seq<PayloadField>)

  datatype PayloadTier = PayloadTier(
    name: string, description: string, price: int, currency: string,
    isDefault: bool, isActive: bool, order: nat)

  /** The body `saveForm` sends; `upsells` is always empty and left out. */
  datatype Payload = Payload(
    title: string, description: string, slug: string, categoryId: Option<string>,
    coverImage: Option<string>, isActive: bool, enablePayment: bool, enableAffiliate: bool,
    maxSubmissions: Option<int>, startDate: Option<string>, endDate: Option<string>,
    theme: string, sendEmail: bool, upsellEnabled: bool, freeOption: bool,
    sections: seq<PayloadSection>, pricingTiers: seq<PayloadTier>)

  /** The slug sent: the form's own slug, else the slug of its title. */
  function FormSlug(form: FormData): (r: string)
    ensures Truthy(form.slug) ==> r == form.slug.value
    ensures !Truthy(form.slug) ==> r == BaseSlug(form.title) && AllIn(r, IsSlugChar)
  {
    if Truthy(form.slug) then form.slug.value else BaseSlug(form.title)
  }

  /** A field's `name`: lower-cased, whitespace runs to `_`, everything outside `\w` dropped. */
  function FieldName(caption: string): (r: string)
    ensures AllIn(r, IsWordChar) && NoneIn(r, IsUpper)
  {
    var lowered := Lower(caption);
    var joined := ReplaceRuns(lowered, IsSpace, '_');
    ReplaceRunsChars(lowered, IsSpace, '_', (c: char) => !IsUpper(c));
    FilterChars(joined, IsWordChar, (c: char) => !IsUpper(c));
    Filter(joined, IsWordChar)
  }

  /** An option's value: trimmed, lower-cased, whitespace runs to `_`. */
  function OptionValue(part: string): (r: string)
    ensures NoneIn(r, IsUpper)
  {
    var lowered := Lower(Trim(part));
    ReplaceRunsChars(lowered, IsSpace, '_', (c: char) => !IsUpper(c));
    ReplaceRuns(lowered, IsSpace, '_')
  }

  /** `options.split(',').map(opt => ({ value, label: opt.trim() }))`. */
  function SaveOptions(options: string): (r: seq<PayloadOption>)
    ensures |r| == |OptionLabels(options)|
    ensures forall i :: 0 <= i < |r| ==> r[i].caption == OptionLabels(options)[i] && r[i].value == OptionValue(OptionLabels(options)[i])
  {
    var parts := Split(options, [',']);
    seq(|parts|, i requires 0 <= i < |parts| => PayloadOption(OptionValue(parts[i]), Trim(parts[i])))
  }

  predicate HasOptions(kind: string) { kind == "select" || kind == "checkbox" }

  /** One field of a section, numbered `order`. */
  function SaveField(f: Field, order: nat): (r: PayloadField)
    ensures r.caption == f.caption && r.kind == SaveType(f.kind) && r.isRequired == f.required && r.order == order
    ensures r.placeholder == if f.placeholder != "" then f.placeholder else "Masukkan " + Lower(f.caption)
    ensures r.helpText == if f.required then "Wajib diisi" else ""
    ensures r.options.Some? <==> HasOptions(f.kind) && f.options != ""
    ensures r.emailRule <==> f.kind == "email"
  {
    PayloadField(
      f.caption, FieldName(f.caption), SaveType(f.kind),
      if f.placeholder != "" then f.placeholder else "Masukkan " + Lower(f.caption),
      if f.required then "Wajib diisi" else "",
      f.required, order,
      if HasOptions(f.kind) && f.options != "" then Some(SaveOptions(f.options)) else None,
      f.kind == "email")
  }

  predicate OwnedBy(id: string, f: Field) { f.sectionId == Some(id) }

  /** `formData.fields.filter(field => field.sectionId === section.id)`. */
  function OwnedFields(fields: seq<Field>, id: string): (r: seq<Field>)
    ensures forall f :: f in r <==> f in fields && f.sectionId == Some(id)
  {
    Keep(fields, f => OwnedBy(id, f))
  }

  /** The fields numbered from 1 in list order. */
  function NumberFields(fields: seq<Field>): (r: seq<PayloadField>)
    ensures |r| == |fields|
    ensures forall j :: 0 <= j < |r| ==> r[j].order == j + 1 && r[j].caption == fields[j].caption
  {
    seq(|fields|, j requires 0 <= j < |fields| => SaveField(fields[j], j + 1))
  }

  /** One section of the save payload: its name, the generated description, its icon or the default, its 1-based order and its numbered fields. */
  function SaveSection(s: Section, index: nat, fields: seq<Field>): (r: PayloadSection)
  {
    PayloadSection(
      s.name, "Isi data " + Lower(s.name) + " dengan lengkap",
      if s.icon != "" then s.icon else DefaultIcon, index + 1,
      NumberFields(OwnedFields(fields, s.id)))
  }

  /**
   * The payload's sections follow the page's order, numbered from 1; each
   * holds exactly the fields its page section owns, in list order,
   * numbered from 1.
   */
  function PayloadSections(form: FormData): (r: seq<PayloadSection>)
    ensures |r| == |form.sections|
    ensures forall i :: 0 <= i < |r| ==>
      r[i].order == i + 1 && r[i].title == form.sections[i].name
      && r[i].fields == NumberFields(OwnedFields(form.fields, form.sections[i].id))
      && |r[i].fields| == |OwnedFields(form.fields, form.sections[i].id)|
    ensures forall i, j :: 0 <= i < |r| && 0 <= j < |r[i].fields| ==>
      r[i].fields[j].order == j + 1 && r[i].fields[j].caption == OwnedFields(form.fields, form.sections[i].id)[j].caption
  {
    seq(|form.sections|, i requires 0 <= i < |form.sections| => SaveSection(form.sections[i], i, form.fields))
  }

  predicate IsPaid(t: Tier) { t.price > 0 }

  /** The tiers with a positive price. */
  function PaidTiers(tiers: seq<Tier>): (r: seq<Tier>)
    ensures forall t :: t in r <==> t in tiers && t.price > 0
  {
    Keep(tiers, IsPaid)
  }

  /** The payload's tiers: none without payment, else the paid ones, numbered, the first the default. */
  function PayloadTiers(form: FormData): (r: seq<PayloadTier>)
    ensures !form.hasPayment ==> r == []
    ensures form.hasPayment ==> |r| == |PaidTiers(form.pricingTiers)|
    ensures forall i :: 0 <= i < |r| ==>
      r[i].price > 0 && r[i].order == i + 1 && (r[i].isDefault <==> i == 0)
      && r[i].currency == "IDR" && r[i].isActive
    ensures forall i :: 0 <= i < |r| ==>
      var t := PaidTiers(form.pricingTiers)[i];
      r[i].name == t.name && r[i].price == t.price
      && r[i].description == if t.features != "" then t.features else t.name
  {
    if !form.hasPayment then []
    else
      var paid := PaidTiers(form.pricingTiers);
      assert forall i :: 0 <= i < |paid| ==> paid[i].price > 0 by {
        forall i | 0 <= i < |paid| ensures paid[i].price > 0 {
          assert paid[i] in paid;
        }
      }
      seq(|paid|, i requires 0 <= i < |paid| =>
        PayloadTier(paid[i].name, if paid[i].features != "" then paid[i].features else paid[i].name,
          paid[i].price, "IDR", i == 0, true, i + 1))
  }

  /** `categories.find(cat => cat.name === folder)?.id || null`. */
  function CategoryIdOf(categories: seq<Category>, folder: string): (r: Option<string>)
    ensures r.Some? ==> r.value != "" && exists i :: 0 <= i < |categories| && categories[i].name == folder && categories[i].id == r.value
    ensures (forall i :: 0 <= i < |categories| ==> categories[i].name != folder) ==> r.None?
    decreases |categories|
  {
    if categories == [] then None
    else if categories[0].name == folder then (if categories[0].id != "" then Some(categories[0].id) else None)
    else
      var r := CategoryIdOf(categories[1..], folder);
      assert r.Some? ==> categories[1..][0..] == categories[1..];
      r
  }

  /** An optional text field: sent when non-empty, else `null`. */
  function OrNone(s: string): (r: Option<string>)
    ensures r.Some? <==> s != ""
    ensures r.Some? ==> r.value == s
  {
    if s != "" then Some(s) else None
  }

  /** The description sent: the form's own, else `Form <title>`, never empty. */
  function DescriptionSent(form: FormData): (r: string)
    ensures r != ""
    ensures form.description != "" ==> r == form.description
  {
    if form.description != "" then form.description else "Form " + form.title
  }

  /** `is_active`: a form is active unless it was switched off. */
  function ActiveSent(form: FormData): (r: bool)
    ensures r <==> form.isActive != Some(false)
  {
    if form.isActive.Some? then form.isActive.value else true
  }

  /** `max_submissions`: a limit of zero (or none) is sent as `null`. */
  function LimitSent(form: FormData): (r: Option<int>)
    ensures r != Some(0)
    ensures r.Some? ==> r == form.maxSubmissions
    ensures form.maxSubmissions.Some? && form.maxSubmissions.value != 0 ==> r == form.maxSubmissions
  {
    if form.maxSubmissions.Some? && form.maxSubmissions.value != 0 then form.maxSubmissions else None
  }

  /**
   * `transformToBackendFormat`: it keeps the title, never sends an empty
   * description, keeps a form active unless it was switched off, sends no
   * zero limit and no empty cover image, then the numbered sections and paid tiers.
   */
  function ToPayload(form: FormData, categories: seq<Category>): (r: Payload)
    ensures r.title == form.title && r.description != ""
    ensures form.description != "" ==> r.description == form.description
    ensures r.isActive <==> form.isActive != Some(false)
    ensures r.maxSubmissions != Some(0) && (r.maxSubmissions.Some? ==> r.maxSubmissions == form.maxSubmissions)
    ensures r.coverImage.Some? <==> form.coverImage != ""
  {
    Payload(
      form.title, DescriptionSent(form), FormSlug(form), CategoryIdOf(categories, form.folder),
      OrNone(form.coverImage), ActiveSent(form), form.hasPayment, form.hasAffiliate,
      LimitSent(form), OrNone(form.startDate), OrNone(form.endDate),
      "modern", true, form.upsellEnabled, form.freeOption,
      PayloadSections(form), PayloadTiers(form))
  }

  // ----- loading a backend form -----

  /** Sections the backend manages itself, which the editor does not show. */
  predicate IsReferral(s: BackendSection)
  {
    s.title == "Kode Referral" || s.title == "Pembayaran & Referral" || s.title == "Referral"
  }

  predicate IsEditable(s: BackendSection) { !IsReferral(s) }

  function EditableSections(sections: seq<BackendSection>): (r: seq<BackendSection>)
    ensures forall s :: s in r <==> s in sections && !IsReferral(s)
  {
    Keep(sections, IsEditable)
  }

  /**
   * The load transform of the editor, with each field owned by the id its
   * section was given (see `LoadFields`). `mint` and `mintField` stand for
   * the ids built from the clock and a random number.
   */
  function LoadForm(b: BackendForm, mint: nat -> string, mintField: (nat, nat) -> string): (r: FormData)
    ensures r.id == b.id && r.title == b.title && r.folder != ""
    ensures |r.sections| == |EditableSections(b.sections)|
    ensures r.pricingTiers == LoadTiers(b.freeOption, b.pricingTiers)
    ensures r.maxSubmissions != Some(0) && r.isActive == Some(b.isActive != Some(false))
  {
    FormData(
      b.id, b.slug, b.title, b.description, b.coverImage,
      if b.categoryName != "" then b.categoryName else Uncategorized,
      LoadSections(EditableSections(b.sections), mint),
      LoadFields(EditableSections(b.sections), 0, mint, mintField),
      LoadTiers(b.freeOption, b.pricingTiers),
      b.enablePayment, b.enableAffiliate, b.upsellEnabled, b.freeOption,
      if b.maxSubmissions != 0 then Some(b.maxSubmissions) else None,
      b.startDate, b.endDate, Some(b.isActive.None? || b.isActive.value), b.submissionsCount)
  }

  /**
   * A loaded form shows none of the sections the backend manages itself,
   * and every loaded field belongs to one of the loaded sections.
   */
  lemma LoadedFormWellFormed(b: BackendForm, mint: nat -> string, mintField: (nat, nat) -> string)
    ensures var r := LoadForm(b, mint, mintField);
      forall s :: s in r.sections ==> s.name != "Kode Referral" && s.name != "Pembayaran & Referral" && s.name != "Referral"
    ensures var r := LoadForm(b, mint, mintField);
      forall f :: f in r.fields ==> exists s :: s in r.sections && f.sectionId == Some(s.id)
  {
    var editable := EditableSections(b.sections);
    var sections := LoadSections(editable, mint);
    var fields := LoadFields(editable, 0, mint, mintField);
    forall s | s in sections
      ensures s.name != "Kode Referral" && s.name != "Pembayaran & Referral" && s.name != "Referral"
    {
      var k :| 0 <= k < |sections| && sections[k] == s;
      assert editable[k] in editable;
    }
    forall f | f in fields ensures exists s :: s in sections && f.sectionId == Some(s.id) {
      var i :| 0 <= i < |fields| && fields[i] == f;
      var m :| 0 <= m < |editable| && fields[i].sectionId == Some(LoadSection(editable[m], mint(0 + m)).id);
      assert sections[m] in sections;
    }
  }

  /** The field as the backend hands it back after storing the payload. */
  function Echo(saved: PayloadField, id: string): (r: BackendField)
  {
    var labels := if saved.options.Some? then seq(|saved.options.value|, i requires 0 <= i < |saved.options.value| => saved.options.value[i].caption) else [];
    BackendField(Some(id), saved.caption, saved.kind, saved.isRequired, saved.placeholder, labels)
  }

  /**
   * Saving a field and loading it back keeps its label, its required flag,
   * its type (`tel` included) and the option labels of a select or
   * checkbox field.
   */
  lemma FieldRoundTrip(f: Field, order: nat, owner: Option<string>, minted: string)
    requires f.id != ""
    ensures var back := LoadField(Echo(SaveField(f, order), f.id), owner, minted);
      back.id == f.id && back.caption == f.caption && back.required == f.required
      && (f.kind != "phone" ==> back.kind == f.kind)
      && (HasOptions(f.kind) && f.options != "" ==> OptionLabels(back.options) == OptionLabels(f.options))
  {
    var saved := SaveField(f, order);
    TypeRoundTrip(f.kind);
    if HasOptions(f.kind) && f.options != "" {
      var labels := OptionLabels(f.options);
      var echoed := Echo(saved, f.id).optionLabels;
      assert echoed == labels;
      OptionsRoundTrip(f.options);
    }
  }

  /**
   * As the editor loads a form, a backend section without an id is given a
   * minted id, but its fields keep the absent id as owner: none of them is
   * owned by the loaded section, so the next save sends that section empty.
   * Owning each field by its section's loaded id keeps them.
   */
  lemma AsWrittenDropsFields()
    ensures var sections := [BackendSection(None, "Data Diri", "", [BackendField(Some("f1"), "Nama", "text", true, "", [])])];
      var mint := (k: nat) => "section_1";
      var mintField := (k: nat, j: nat) => "field_" + IntToString(k) + "_" + IntToString(j);
      var page := LoadSections(sections, mint);
      |LoadFieldsAsWritten(sections, 0, mintField)| == 1
      && OwnedFields(LoadFieldsAsWritten(sections, 0, mintField), page[0].id) == []
      && OwnedFields(LoadFields(sections, 0, mint, mintField), page[0].id) == LoadFields(sections, 0, mint, mintField)
      && |LoadFields(sections, 0, mint, mintField)| == 1
  {
    var sections := [BackendSection(None, "Data Diri", "", [BackendField(Some("f1"), "Nama", "text", true, "", [])])];
    var mint := (k: nat) => "section_1";
    var mintField := (k: nat, j: nat) => "field_" + IntToString(k) + "_" + IntToString(j);
    var page := LoadSections(sections, mint);
    assert page[0].id == "section_1";
    var written := LoadFieldsAsWritten(sections, 0, mintField);
    assert sections[1..] == [];
    assert written == SectionFields(sections[0], None, 0, mintField);
    assert written[0].sectionId == None;
    assert OwnedFields(written, page[0].id) == [] by {
      assert Keep(written[1..], f => OwnedBy("section_1", f)) == [];
    }
    var fixed := LoadFields(sections, 0, mint, mintField);
    assert fixed == SectionFields(sections[0], Some("section_1"), 0, mintField);
    KeepAll(fixed, f => OwnedBy("section_1", f));
  }

  // ----- saveForm -----

  const SaveRefusal := "Judul dan folder harus diisi."
  const MissingFormId := "Form ID not found. Cannot update form."
  const SaveFallback := "Gagal menyimpan form. Coba lagi."

  /** The request `saveForm` sends: a create, or an update of the form's own id. */
  datatype SaveRequest = SaveRequest(verb: string, endpoint: string, payload: Payload)

  /** How `saveForm` ends: refused before any request, failed with a message, or saved and back on the form list. */
  datatype SaveOutcome = Refused(message: string) | Failed(message: string) | Saved(id: string, target: string)

  /** The cache entry `saveForm` writes for a saved form. */
  function ListItem(saved: SavedForm, payloadTitle: string, folder: string, now: string): (r: CachedForm)
    ensures r.id == saved.id && r.slug == None && r.folder == folder
    ensures r.title == if saved.title != "" then saved.title else payloadTitle
    ensures r.submissions == if saved.submissionsCount != 0 then saved.submissionsCount else saved.responsesCount
    ensures r.createdAt == if saved.createdAt != "" then saved.createdAt else now
  {
    CachedForm(saved.id, None, if saved.title != "" then saved.title else payloadTitle, folder,
      if saved.submissionsCount != 0 then saved.submissionsCount else saved.responsesCount,
      if saved.createdAt != "" then saved.createdAt else now)
  }

  /** `JSON.parse(localStorage.getItem('smartpath_forms') || '[]')`; other content does not parse as a form list. */
  function CachedForms(local: Store): (r: Option<seq<CachedForm>>)
    ensures !Present(local, FormsKey) ==> r == Some([])
    ensures FormsKey in local && local[FormsKey].FormsDoc? ==> r == Some(local[FormsKey].forms)
  {
    if !Present(local, FormsKey) then Some([])
    else if local[FormsKey].FormsDoc? then Some(local[FormsKey].forms)
    else None
  }

  /** `findIndex(f => f.id === id)`, `-1` when absent. */
  function IndexOfForm(forms: seq<CachedForm>, id: string): (r: int)
    ensures -1 <= r < |forms|
    ensures r >= 0 ==> forms[r].id == id && forall k :: 0 <= k < r ==> forms[k].id != id
    ensures r == -1 ==> forall k :: 0 <= k < |forms| ==> forms[k].id != id
    decreases |forms|
  {
    if forms == [] then -1
    else if forms[0].id == id then 0
    else
      var r := IndexOfForm(forms[1..], id);
      if r == -1 then -1 else r + 1
  }

  /** The cache with `item` in place of the first entry with its id, or appended. */
  function Upserted(forms: seq<CachedForm>, item: CachedForm): (r: seq<CachedForm>)
  {
    var i := IndexOfForm(forms, item.id);
    if i >= 0 then forms[i := item] else forms + [item]
  }

  /** No two cached forms share an id. */
  predicate UniqueIds(forms: seq<CachedForm>)
  {
    forall i, j :: 0 <= i < j < |forms| ==> forms[i].id != forms[j].id
  }

  /**
   * After an upsert the item is in the cache, every entry with another id
   * is kept in place, the cache grows only when the id was new, and a cache
   * with one entry per id keeps that property.
   */
  lemma UpsertedSpec(forms: seq<CachedForm>, item: CachedForm)
    ensures item in Upserted(forms, item)
    ensures (exists k :: 0 <= k < |forms| && forms[k].id == item.id) ==> |Upserted(forms, item)| == |forms|
    ensures (forall k :: 0 <= k < |forms| ==> forms[k].id != item.id) ==> Upserted(forms, item) == forms + [item]
    ensures forall k :: 0 <= k < |forms| && forms[k].id != item.id ==> Upserted(forms, item)[k] == forms[k]
    ensures UniqueIds(forms) ==> UniqueIds(Upserted(forms, item))
  {
    var r := Upserted(forms, item);
    var i := IndexOfForm(forms, item.id);
    if i >= 0 {
      assert r[i] == item;
    } else {
      assert r[|forms|] == item;
    }
    if UniqueIds(forms) && i >= 0 {
      forall a, b | 0 <= a < b < |r| ensures r[a].id != r[b].id {
        if a == i {
          assert r[b] == forms[b];
        } else if b == i {
          assert r[a] == forms[a];
        }
      }
    }
  }

  /** The in-place upsert: `savedForms[existingIndex] = item` or `savedForms.push(item)`. */
  method UpsertCached(forms: seq<CachedForm>, item: CachedForm) returns (r: seq<CachedForm>)
    ensures r == Upserted(forms, item)
  {
    var i := 0;
    while i < |forms| && forms[i].id != item.id
      invariant 0 <= i <= |forms|
      invariant forall k :: 0 <= k < i ==> forms[k].id != item.id
    {
      i := i + 1;
    }
    if i < |forms| {
      r := forms[i := item];
    } else {
      r := forms + [item];
    }
  }

  /**
   * `saveForm`: without a title or folder nothing is sent and storage is
   * untouched; an update of a form without id fails before sending; a
   * failed request leaves storage untouched; a saved form is written under
   * its own key and upserted into the form cache. A cache that does not
   * read as a form list makes the upsert throw after the form's own entry
   * was written; `cacheError` is the message of that error, and the cache
   * is left as it was.
   */
  method SaveForm(b: Browser, form: FormData, categories: seq<Category>, isNew: bool,
                  reply: Result<SavedForm, string>, now: string, cacheError: string)
    returns (request: Option<SaveRequest>, outcome: SaveOutcome)
    requires b.Valid()
    modifies b
    ensures b.Valid() && b.jar == old(b.jar) && b.location == old(b.location)
    ensures form.title == "" || form.folder == "" ==>
      (request == None && outcome == Refused(SaveRefusal) && b.local == old(b.local))
    ensures form.title != "" && form.folder != "" && !isNew && !Truthy(form.id) ==>
      (request == None && outcome == Failed(MissingFormId) && b.local == old(b.local))
    ensures request.Some? ==>
      (request.value.payload == ToPayload(form, categories)
       && (isNew ==> request.value.verb == "POST" && request.value.endpoint == Endpoints.FormCreate.path)
       && (!isNew ==> request.value.verb == "PUT" && request.value.endpoint == Endpoints.BuildEndpoint(Endpoints.FormUpdate, form.id.value)))
    ensures form.title != "" && form.folder != "" && (isNew || Truthy(form.id)) ==> request.Some?
    ensures request.Some? && reply.Err? ==>
      (outcome == Failed(if reply.error != "" then reply.error else SaveFallback) && b.local == old(b.local))
    ensures outcome.Saved? ==>
      (reply.Ok? && outcome.id == reply.value.id && outcome.target == Routes.GetPath("ADMIN_FORMS")
       && FormKeyPrefix + reply.value.id in b.local && b.local[FormKeyPrefix + reply.value.id] == FormDoc(reply.value)
       && CachedForms(old(b.local)).Some?
       && b.local == old(b.local)[FormKeyPrefix + reply.value.id := FormDoc(reply.value)][FormsKey :=
            FormsDoc(Upserted(CachedForms(old(b.local)).value, ListItem(reply.value, form.title, form.folder, now)))])
    ensures request.Some? && reply.Ok? && CachedForms(old(b.local)).Some? ==> outcome.Saved?
    ensures request.Some? && reply.Ok? && CachedForms(old(b.local)).None? ==>
      (outcome == Failed(if cacheError != "" then cacheError else SaveFallback)
       && b.local == old(b.local)[FormKeyPrefix + reply.value.id := FormDoc(reply.value)]
       && b.local[FormsKey] == old(b.local)[FormsKey])
  {
    if form.title == "" || form.folder == "" {
      return None, Refused(SaveRefusal);
    }
    var payload := ToPayload(form, categories);
    if isNew {
      request := Some(SaveRequest("POST", Endpoints.FormCreate.path, payload));
    } else {
      if !Truthy(form.id) {
        return None, Failed(MissingFormId);
      }
      request := Some(SaveRequest("PUT", Endpoints.BuildEndpoint(Endpoints.FormUpdate, form.id.value), payload));
    }
    if reply.Err? {
      return request, Failed(if reply.error != "" then reply.error else SaveFallback);
    }
    var saved := reply.value;
    var cached := CachedForms(b.local);
    PrefixedKeyNotCredential(saved.id);
    b.SetItem(FormKeyPrefix + saved.id, FormDoc(saved));
    assert CachedForms(b.local) == cached;
    if cached.None? {
      // An unreadable cache makes `JSON.parse` or `findIndex` throw after the form entry was written.
      outcome := Failed(if cacheError != "" then cacheError else SaveFallback);
      return;
    }
    var forms := UpsertCached(cached.value, ListItem(saved, payload.title, form.folder, now));
    b.SetItem(FormsKey, FormsDoc(forms));
    outcome := Saved(saved.id, Routes.Table["ADMIN_FORMS"].path);
  }
}
