/**
 * `src/pages/UserFormView.jsx`: the public form page. Loading a backend
 * form, moving between sections, the checkbox value lists, the default
 * tier, the auto-fill from the signed-in user, the decision `handleSubmit`
 * takes, the submission payload, the error messages and the local copy of
 * a submission.
 */
module UserFormView {
  import opened Wrappers
  import opened JsStrings
  import opened Forms
  import opened Storage
  import FormBuilder
  import Lists

  // ----- loading -----

  /**
   * The page's transform of a backend form: every section is shown (the
   * backend's referral sections included), tier prices are read as
   * integers, and each field is owned by the id its section was given.
   */
  function LoadPublicForm(b: BackendForm, mint: nat -> string, mintField: (nat, nat) -> string): (r: FormData)
    ensures r.id == b.id && r.title == b.title && r.folder != ""
    ensures |r.sections| == |b.sections|
    ensures r.pricingTiers == LoadTiers(b.freeOption, b.pricingTiers)
  {
    FormData(
      b.id, None, b.title, b.description, b.coverImage,
      if b.categoryName != "" then b.categoryName else Uncategorized,
      LoadSections(b.sections, mint), LoadFields(b.sections, 0, mint, mintField),
      LoadTiers(b.freeOption, b.pricingTiers),
      b.enablePayment, b.enableAffiliate, b.upsellEnabled, b.freeOption,
      None, "", "", None, b.submissionsCount)
  }

  /** No loaded field of the public form keeps the `phone` type, and each belongs to one of the loaded sections. */
  lemma PublicFieldsOwned(b: BackendForm, mint: nat -> string, mintField: (nat, nat) -> string)
    ensures var r := LoadPublicForm(b, mint, mintField);
      forall f :: f in r.fields ==> f.kind != "phone" && exists s :: s in r.sections && f.sectionId == Some(s.id)
  {
    var sections := LoadSections(b.sections, mint);
    var fields := LoadFields(b.sections, 0, mint, mintField);
    forall f | f in fields ensures f.kind != "phone" && exists s :: s in sections && f.sectionId == Some(s.id) {
      var i :| 0 <= i < |fields| && fields[i] == f;
      var m :| 0 <= m < |b.sections| && fields[i].sectionId == Some(LoadSection(b.sections[m], mint(0 + m)).id);
      assert sections[m] in sections;
      FieldKind(b.sections, 0, mint, mintField, i);
    }
  }

  /** Every loaded field's type went through the `phone` to `tel` mapping. */
  lemma {:induction false} FieldKind(sections: seq<BackendSection>, k: nat, mint: nat -> string, mintField: (nat, nat) -> string, i: nat)
    requires i < |LoadFields(sections, k, mint, mintField)|
    ensures LoadFields(sections, k, mint, mintField)[i].kind != "phone"
    decreases |sections|
  {
    var head := SectionFields(sections[0], Some(LoadSection(sections[0], mint(k)).id), k, mintField);
    if i >= |head| {
      FieldKind(sections[1..], k + 1, mint, mintField, i - |head|);
    }
  }

  // ----- sections -----

  /** `findIndex(s => s.id === id)`: `-1` when no section has that id. */
  function IndexOf(sections: seq<Section>, id: Option<string>): (r: int)
    ensures -1 <= r < |sections|
    ensures r >= 0 ==> Some(sections[r].id) == id && forall k :: 0 <= k < r ==> Some(sections[k].id) != id
    ensures r == -1 ==> forall k :: 0 <= k < |sections| ==> Some(sections[k].id) != id
    decreases |sections|
  {
    if sections == [] then -1
    else if Some(sections[0].id) == id then 0
    else
      var r := IndexOf(sections[1..], id);
      if r == -1 then -1 else r + 1
  }

  /** `handleSectionChange(direction)`: the section `direction` steps away, when there is one. */
  function SectionChange(sections: seq<Section>, current: Option<string>, direction: int): (r: Option<string>)
    ensures var next := IndexOf(sections, current) + direction;
      (0 <= next < |sections| ==> r == Some(sections[next].id))
      && (!(0 <= next < |sections|) ==> r == current)
  {
    var next := IndexOf(sections, current) + direction;
    if 0 <= next < |sections| then Some(sections[next].id) else current
  }

  /** No two sections share an id. */
  predicate DistinctIds(sections: seq<Section>)
  {
    forall i, j :: 0 <= i < j < |sections| ==> sections[i].id != sections[j].id
  }

  /** With distinct section ids, a step forward and a step back return to the same section. */
  lemma ForwardBack(sections: seq<Section>, i: nat)
    requires DistinctIds(sections) && i + 1 < |sections|
    ensures SectionChange(sections, SectionChange(sections, Some(sections[i].id), 1), -1) == Some(sections[i].id)
  {
    assert IndexOf(sections, Some(sections[i].id)) == i;
    assert IndexOf(sections, Some(sections[i + 1].id)) == i + 1;
  }

  /** The section shown first: the first one, when none is shown yet. */
  function InitialSection(sections: seq<Section>, current: Option<string>): (r: Option<string>)
    ensures Truthy(current) || sections == [] ==> r == current
    ensures !Truthy(current) && sections != [] ==> r == Some(sections[0].id)
  {
    if sections != [] && !Truthy(current) then Some(sections[0].id) else current
  }

  // ----- tiers -----

  predicate IsFree(t: Tier) { t.price == 0 }

  /** `pricingTiers.find(t => t.price === 0)`. */
  function FirstFree(tiers: seq<Tier>): (r: Option<Tier>)
    ensures r.Some? ==> r.value in tiers && r.value.price == 0
    ensures r.None? <==> forall i :: 0 <= i < |tiers| ==> tiers[i].price != 0
    ensures r.Some? ==> exists i :: 0 <= i < |tiers| && tiers[i] == r.value && forall k :: 0 <= k < i ==> tiers[k].price != 0
    decreases |tiers|
  {
    if tiers == [] then None
    else if tiers[0].price == 0 then Some(tiers[0])
    else
      var r := FirstFree(tiers[1..]);
      assert (r.Some? ==> exists i :: 0 <= i < |tiers| && tiers[i] == r.value && forall k :: 0 <= k < i ==> tiers[k].price != 0)
        && (r.None? ==> forall i :: 0 <= i < |tiers| ==> tiers[i].price != 0) by {
        if r.Some? {
          var i :| 0 <= i < |tiers[1..]| && tiers[1..][i] == r.value && forall k :: 0 <= k < i ==> tiers[1..][k].price != 0;
          assert tiers[i + 1] == r.value;
          forall k | 0 <= k < i + 1 ensures tiers[k].price != 0 {
            if k > 0 { assert tiers[k] == tiers[1..][k - 1]; }
          }
        } else {
          forall i | 0 <= i < |tiers| ensures tiers[i].price != 0 {
            if i > 0 { assert tiers[i] == tiers[1..][i - 1]; }
          }
        }
      }
      r
  }

  /**
   * The tier chosen for the visitor: with payment, tiers and no choice
   * yet, the first free tier, else the first tier; otherwise the choice
   * stays as it is.
   */
  function DefaultTier(hasPayment: bool, tiers: seq<Tier>, selected: Option<Tier>): (r: Option<Tier>)
    ensures !(hasPayment && tiers != [] && selected.None?) ==> r == selected
    ensures hasPayment && tiers != [] && selected.None? ==> r.Some? && r.value in tiers
    ensures hasPayment && tiers != [] && selected.None? && (exists i :: 0 <= i < |tiers| && tiers[i].price == 0) ==>
      r.value.price == 0
    ensures hasPayment && tiers != [] && selected.None? && (forall i :: 0 <= i < |tiers| ==> tiers[i].price != 0) ==>
      r == Some(tiers[0])
  {
    if hasPayment && tiers != [] && selected.None? then
      var free := FirstFree(tiers);
      if free.Some? then free else Some(tiers[0])
    else selected
  }

  // ----- checkboxes -----

  predicate NonEmpty(s: string) { s != "" }

  /** `(options || '').split(',').map(opt => opt.trim()).filter(Boolean)`. */
  function CheckboxOptions(options: string): (r: seq<string>)
    ensures forall x :: x in r <==> x in OptionLabels(options) && x != ""
  {
    Lists.Keep(OptionLabels(options), NonEmpty)
  }

  /** Each checkbox option is a non-empty, trimmed label without commas. */
  lemma CheckboxOptionsAreLabels(options: string)
    ensures var r := CheckboxOptions(options);
      forall i :: 0 <= i < |r| ==> r[i] != "" && IsLabel(r[i])
  {
    var r := CheckboxOptions(options);
    forall i | 0 <= i < |r| ensures r[i] != "" && IsLabel(r[i]) {
      assert r[i] in r;
    }
  }

  /** `value ? value.split(',') : []`. */
  function SelectedValues(value: string): (r: seq<string>)
    ensures forall i :: 0 <= i < |r| ==> NoComma(r[i])
  {
    if value == "" then []
    else
      SplitPartsFree(value, ',');
      Split(value, [','])
  }

  predicate Differs(option: string, v: string) { v != option }

  /** The values after the toggle, before they are joined. */
  function Toggled(value: string, option: string, checked: bool): seq<string>
  {
    if checked then SelectedValues(value) + [option]
    else Lists.Keep(SelectedValues(value), v => Differs(option, v))
  }

  /** The checkbox handler: the option is pushed or filtered out, and the list joined with `,`. */
  method Toggle(value: string, option: string, checked: bool) returns (r: string)
    ensures r == Join(Toggled(value, option, checked), ",")
  {
    var values := SelectedValues(value);
    if checked {
      values := values + [option];
    } else {
      values := Without(values, option);
    }
    r := Join(values, ",");
  }

  /** `values.filter(v => v !== option)`. */
  method Without(values: seq<string>, option: string) returns (kept: seq<string>)
    ensures kept == Lists.Keep(values, v => Differs(option, v))
  {
    kept := [];
    var i := 0;
    while i < |values|
      invariant 0 <= i <= |values|
      invariant kept == Lists.Keep(values[..i], v => Differs(option, v))
    {
      Lists.KeepAppend(values[..i], [values[i]], v => Differs(option, v));
      assert values[..i + 1] == values[..i] + [values[i]];
      if values[i] != option {
        kept := kept + [values[i]];
      }
      i := i + 1;
    }
    assert values[..i] == values;
  }

  /** Values without commas come back from the joined text, except a lone empty value. */
  lemma ReadBack(values: seq<string>)
    requires forall i :: 0 <= i < |values| ==> NoComma(values[i])
    requires values != [""]
    ensures SelectedValues(Join(values, ",")) == values
  {
    if values != [] {
      assert forall i, j :: 0 <= i < |values| && 0 <= j < |values[i]| ==> values[i][j] != ',' by {
        forall i, j | 0 <= i < |values| && 0 <= j < |values[i]| ensures values[i][j] != ',' {
          assert IsNotComma(values[i][j]);
        }
      }
      SplitJoin(values, ',');
      if Join(values, ",") == "" {
        JoinEmpty(values);
      }
    }
  }

  /** Joining a non-empty list of values gives `""` only for a lone empty value. */
  lemma JoinEmpty(values: seq<string>)
    requires values != [] && Join(values, ",") == ""
    ensures values == [""]
  {
    if |values| > 1 {
      assert false;
    }
  }

  /** Checking an option adds it after the values already checked. */
  lemma CheckAppends(value: string, option: string)
    requires option != "" && NoComma(option)
    ensures SelectedValues(Join(Toggled(value, option, true), ",")) == SelectedValues(value) + [option]
  {
    var values := SelectedValues(value) + [option];
    assert values[|values| - 1] == option;
    assert forall i :: 0 <= i < |values| ==> NoComma(values[i]);
    ReadBack(values);
  }

  /** Unchecking an option removes every occurrence of it and keeps the others in order. */
  lemma UncheckRemoves(value: string, option: string)
    requires option != ""
    ensures option !in SelectedValues(Join(Toggled(value, option, false), ","))
    ensures var kept := Lists.Keep(SelectedValues(value), v => Differs(option, v));
      kept != [""] ==> SelectedValues(Join(Toggled(value, option, false), ",")) == kept
  {
    var kept := Lists.Keep(SelectedValues(value), v => Differs(option, v));
    assert forall i :: 0 <= i < |kept| ==> NoComma(kept[i]) by {
      forall i | 0 <= i < |kept| ensures NoComma(kept[i]) {
        assert kept[i] in kept;
      }
    }
    if kept != [""] {
      ReadBack(kept);
    } else {
      assert Join(kept, ",") == "";
    }
  }

  // ----- auto-fill -----

  predicate IsEmailField(f: Field)
  {
    f.kind == "email" || Contains(Lower(f.caption), "email") || Contains(Lower(f.caption), "e-mail")
  }

  predicate IsNameField(f: Field)
  {
    var c := Lower(f.caption);
    Contains(c, "nama") || Contains(c, "name") || Contains(c, "fullname") || Contains(c, "full name")
  }

  predicate IsPhoneField(f: Field)
  {
    var c := Lower(f.caption);
    f.kind == "tel" || Contains(c, "phone") || Contains(c, "telepon") || Contains(c, "hp") || Contains(c, "whatsapp")
  }

  /** What the auto-fill puts under one field id, if anything; `None` inside is an absent user attribute. */
  function FillFor(f: Field, user: UserData): (r: Option<Option<string>>)
    ensures r.None? <==> !IsEmailField(f) && !IsNameField(f) && !(IsPhoneField(f) && Truthy(user.phone))
    ensures IsPhoneField(f) && Truthy(user.phone) ==> r == Some(user.phone)
    ensures !(IsPhoneField(f) && Truthy(user.phone)) && IsNameField(f) ==> r == Some(user.name)
  {
    if IsPhoneField(f) && Truthy(user.phone) then Some(user.phone)
    else if IsNameField(f) then Some(user.name)
    else if IsEmailField(f) then Some(user.email)
    else None
  }

  /** The values the `forEach` collects, later fields overwriting earlier ones with the same id. */
  function AutoFilled(fields: seq<Field>, user: UserData): (r: map<string, Option<string>>)
    decreases |fields|
  {
    if fields == [] then map[]
    else
      var before := AutoFilled(fields[..|fields| - 1], user);
      var f := fields[|fields| - 1];
      match FillFor(f, user)
      case None => before
      case Some(v) => before[f.id := v]
  }

  /** Every auto-filled id belongs to a field that asks for it; phone numbers only when the user has one. */
  lemma {:induction false} AutoFilledFields(fields: seq<Field>, user: UserData)
    ensures forall id :: id in AutoFilled(fields, user) ==>
      exists f :: f in fields && f.id == id && FillFor(f, user) == Some(AutoFilled(fields, user)[id])
    ensures !Truthy(user.phone) ==> forall id :: id in AutoFilled(fields, user) ==>
      exists f :: f in fields && f.id == id && (IsEmailField(f) || IsNameField(f))
    decreases |fields|
  {
    if fields != [] {
      var init := fields[..|fields| - 1];
      AutoFilledFields(init, user);
      assert forall f :: f in init ==> f in fields;
    }
  }

  /** The `forEach` that fills `autoFillValues`. */
  method AutoFill(fields: seq<Field>, user: UserData) returns (fill: map<string, Option<string>>)
    ensures fill == AutoFilled(fields, user)
  {
    fill := map[];
    var i := 0;
    while i < |fields|
      invariant 0 <= i <= |fields|
      invariant fill == AutoFilled(fields[..i], user)
    {
      var f := fields[i];
      assert fields[..i + 1][..i] == fields[..i];
      if IsEmailField(f) {
        fill := fill[f.id := user.email];
      }
      if IsNameField(f) {
        fill := fill[f.id := user.name];
      }
      if IsPhoneField(f) && Truthy(user.phone) {
        fill := fill[f.id := user.phone];
      }
      i := i + 1;
    }
    assert fields[..i] == fields;
  }

  /** `{ ...autoFillValues, ...prev }`: what the visitor entered wins. */
  function Merge(fill: map<string, Option<string>>, prev: map<string, Option<string>>): (r: map<string, Option<string>>)
    ensures r.Keys == fill.Keys + prev.Keys
    ensures forall k :: k in prev ==> r[k] == prev[k]
    ensures forall k :: k in fill && k !in prev ==> r[k] == fill[k]
  {
    map k | k in fill.Keys + prev.Keys :: if k in prev then prev[k] else fill[k]
  }

  // ----- submitting -----

  /** What `handleSubmit` does. */
  datatype SubmitStep = Advance | PreviewOnly | AlreadySubmitted | OfferUpsell | Send

  /** The decision `handleSubmit` takes before anything is sent. */
  function SubmitDecision(
    sections: seq<Section>, current: Option<string>, isPreview: bool, hasSubmitted: bool,
    authenticated: bool, tier: Option<Tier>, upsellEnabled: bool, showUpsell: bool): (r: SubmitStep)
    ensures r == Advance <==> IndexOf(sections, current) < |sections| - 1
    ensures r == PreviewOnly <==> IndexOf(sections, current) >= |sections| - 1 && isPreview
    ensures r == AlreadySubmitted <==> IndexOf(sections, current) >= |sections| - 1 && !isPreview && hasSubmitted && authenticated
    ensures r == Send ==>
      IndexOf(sections, current) >= |sections| - 1 && !isPreview && !(hasSubmitted && authenticated)
      && !(tier.Some? && tier.value.price == 0 && upsellEnabled && !showUpsell)
    ensures r == OfferUpsell <==>
      IndexOf(sections, current) >= |sections| - 1 && !isPreview && !(hasSubmitted && authenticated)
      && tier.Some? && tier.value.price == 0 && upsellEnabled && !showUpsell
  {
    if IndexOf(sections, current) < |sections| - 1 then Advance
    else if isPreview then PreviewOnly
    else if hasSubmitted && authenticated then AlreadySubmitted
    else if tier.Some? && tier.value.price == 0 && upsellEnabled && !showUpsell then OfferUpsell
    else Send
  }

  /** `formData.fields.find(f => f.id === id)`. */
  function FindField(fields: seq<Field>, id: string): (r: Option<Field>)
    ensures r.Some? ==> r.value in fields && r.value.id == id
    ensures r.None? ==> forall f :: f in fields ==> f.id != id
    decreases |fields|
  {
    if fields == [] then None
    else if fields[0].id == id then Some(fields[0])
    else FindField(fields[1..], id)
  }

  /** The label and value an entry adds to `data`, if any: entries of unknown or email fields add none. */
  function EntryData(fields: seq<Field>, entry: (string, Option<string>)): (r: Option<(string, string)>)
    ensures r.Some? <==> FindField(fields, entry.0).Some? && FindField(fields, entry.0).value.kind != "email"
    ensures r.Some? ==> r.value == (FindField(fields, entry.0).value.caption, if Truthy(entry.1) then entry.1.value else "")
  {
    var field := FindField(fields, entry.0);
    if field.Some? && field.value.kind != "email" then
      Some((field.value.caption, if Truthy(entry.1) then entry.1.value else ""))
    else None
  }

  /** The `data` built from the entries of `formValues`, in entry order, later labels overwriting. */
  function SubmissionData(fields: seq<Field>, entries: seq<(string, Option<string>)>): (r: map<string, string>)
    decreases |entries|
  {
    if entries == [] then map[]
    else
      var before := SubmissionData(fields, entries[..|entries| - 1]);
      match EntryData(fields, entries[|entries| - 1])
      case None => before
      case Some(kv) => before[kv.0 := kv.1]
  }

  /** A label is in `data` exactly when some entry of a known, non-email field carries it. */
  lemma {:induction false} SubmissionLabels(fields: seq<Field>, entries: seq<(string, Option<string>)>, key: string)
    ensures key in SubmissionData(fields, entries) <==>
      exists e :: e in entries && EntryData(fields, e).Some? && EntryData(fields, e).value.0 == key
    decreases |entries|
  {
    if entries != [] {
      var init := entries[..|entries| - 1];
      SubmissionLabels(fields, init, key);
      assert entries == init + [entries[|entries| - 1]];
      assert forall e :: e in entries <==> e in init || e == entries[|entries| - 1];
    }
  }

  /** The body sent with a submission: `data`, and `pricing_tier_id` for a tier with a truthy id. */
  datatype Submission = Submission(data: map<string, string>, pricingTierId: Option<Id>)

  const AffiliateKey := "affiliate_code"

  /** The payload built by the `forEach` over `formValues` and the two optional additions. */
  method BuildSubmission(fields: seq<Field>, entries: seq<(string, Option<string>)>, affiliateCode: string, tier: Option<Tier>)
    returns (s: Submission)
    ensures affiliateCode == "" ==> s.data == SubmissionData(fields, entries)
    ensures affiliateCode != "" ==> s.data == SubmissionData(fields, entries)[AffiliateKey := affiliateCode]
    ensures s.pricingTierId.Some? <==> tier.Some? && TruthyId(tier.value.id)
    ensures s.pricingTierId.Some? ==> s.pricingTierId.value == tier.value.id
  {
    var data: map<string, string> := map[];
    var i := 0;
    while i < |entries|
      invariant 0 <= i <= |entries|
      invariant data == SubmissionData(fields, entries[..i])
    {
      assert entries[..i + 1][..i] == entries[..i];
      var field := FindField(fields, entries[i].0);
      if field.Some? && field.value.kind != "email" {
        data := data[field.value.caption := if Truthy(entries[i].1) then entries[i].1.value else ""];
      }
      i := i + 1;
    }
    assert entries[..i] == entries;
    if affiliateCode != "" {
      data := data[AffiliateKey := affiliateCode];
    }
    var tierId := if tier.Some? && TruthyId(tier.value.id) then Some(tier.value.id) else None;
    s := Submission(data, tierId);
  }

  // ----- errors -----

  const DefaultError := "Gagal mengirim form. Coba lagi."
  const SessionExpired := "Sesi Anda telah berakhir. Silakan login ulang."
  const AlreadyFilled := "Anda sudah pernah mengisi form ini sebelumnya."
  const PaymentError := "Terjadi kesalahan pada sistem pembayaran. Silakan hubungi admin."

  /** The message shown for a failed submission, whether the page now counts it as submitted, and whether it sends the visitor to sign in again. */
  datatype SubmitError = SubmitError(text: string, markSubmitted: bool, relogin: bool)

  function ErrorFor(message: string): (r: SubmitError)
    ensures r.relogin <==> Contains(message, "Authentication required")
    ensures r.relogin ==> r.text == SessionExpired && !r.markSubmitted
    ensures r.markSubmitted <==>
      !Contains(message, "Authentication required")
      && (Contains(message, "duplicate") || Contains(message, "already submitted"))
    ensures r.markSubmitted ==> r.text == AlreadyFilled
    ensures !r.relogin && !r.markSubmitted && Contains(message, "Xendit") ==> r.text == PaymentError
    ensures (!Contains(message, "Authentication required") && !Contains(message, "duplicate")
             && !Contains(message, "already submitted") && !Contains(message, "Xendit")) ==>
      r.text == if message != "" then message else DefaultError
  {
    if Contains(message, "Authentication required") then SubmitError(SessionExpired, false, true)
    else if Contains(message, "duplicate") || Contains(message, "already submitted") then SubmitError(AlreadyFilled, true, false)
    else if Contains(message, "Xendit") then SubmitError(PaymentError, false, false)
    else if message != "" then SubmitError(message, false, false)
    else SubmitError(DefaultError, false, false)
  }

  // ----- the local copy -----

  const ResponsesPrefix := "smartpath_responses_"

  /** `JSON.parse(localStorage.getItem(key) || '[]')` for a list of responses. */
  function StoredResponses(local: Store, key: string): (r: Option<seq<LocalResponse>>)
    ensures !Present(local, key) ==> r == Some([])
    ensures key in local && local[key].ResponsesDoc? ==> r == Some(local[key].responses)
  {
    if !Present(local, key) then Some([])
    else if local[key].ResponsesDoc? then Some(local[key].responses)
    else None
  }

  lemma ResponsesKeyNotCredential(slug: string)
    ensures ResponsesPrefix + slug != AccessTokenKey && ResponsesPrefix + slug != RefreshTokenKey
  {
    assert (ResponsesPrefix + slug)[10] == 'r' && (ResponsesPrefix + slug)[11] == 'e';
    assert AccessTokenKey[10] == 'a' && RefreshTokenKey[11] == 'e' && RefreshTokenKey[12] == 'f';
    assert (ResponsesPrefix + slug)[12] == 's';
  }

  /**
   * The local copy of a submission: `{id, submittedAt, data: formValues,
   * tier: tier?.name, amount: tier?.price || 0}` pushed onto the stored
   * list of the form. Returns false, and writes nothing, when the stored
   * text is not a list of responses.
   */
  method StoreResponse(b: Browser, slug: string, id: int, submittedAt: string,
                       values: seq<(string, string)>, tier: Option<Tier>)
    returns (stored: bool)
    requires b.Valid()
    modifies b
    ensures b.Valid() && b.jar == old(b.jar) && b.location == old(b.location)
    ensures stored <==> StoredResponses(old(b.local), ResponsesPrefix + slug).Some?
    ensures !stored ==> b.local == old(b.local)
    ensures stored ==> b.local == old(b.local)[ResponsesPrefix + slug := ResponsesDoc(
      StoredResponses(old(b.local), ResponsesPrefix + slug).value
      + [LocalResponse(id, submittedAt, values,
           if tier.Some? then Some(tier.value.name) else None,
           if tier.Some? then tier.value.price else 0)])]
  {
    var key := ResponsesPrefix + slug;
    var saved := StoredResponses(b.local, key);
    if saved.None? {
      return false;
    }
    var entry := LocalResponse(id, submittedAt, values,
      if tier.Some? then Some(tier.value.name) else None,
      if tier.Some? then tier.value.price else 0);
    ResponsesKeyNotCredential(slug);
    b.SetItem(key, ResponsesDoc(saved.value + [entry]));
    stored := true;
  }
}
