/**
 * The form structure shared by the form editor (`src/pages/FormBuilderEditor.jsx`)
 * and the public form page (`src/pages/UserFormView.jsx`): sections, fields
 * and pricing tiers as the pages hold them, the form as the backend returns
 * it, and the pieces of the backend-to-page transform both pages repeat.
 */
module Forms {
  import opened Wrappers
  import opened JsStrings

  /** An identifier that is a number (the synthetic free tier has `0`) or a string. */
  datatype Id = Num(n: int) | Str(s: string)

  predicate TruthyId(id: Id)
  {
    if id.Num? then id.n != 0 else id.s != ""
  }

  datatype Section = Section(id: string, name: string, icon: string)

  /**
   * A field; `caption` is the source's `label`, `kind` its `type`, `options` the comma-separated
   * option labels, `sectionId` the id of the owning section (`None` when the
   * backend gave the section no id).
   */
  datatype Field = Field(
    id: string, caption: string, kind: string, required: bool,
    placeholder: string, options: string, sectionId: Option<string>)

  /** A pricing tier; `features` is its description. */
  datatype Tier = Tier(id: Id, name: string, price: int, features: string)

  /** The form as the pages edit and show it (`formData`). */
  datatype FormData = FormData(
    id: Option<string>, slug: Option<string>, title: string, description: string,
    coverImage: string, folder: string,
    sections: seq<Section>, fields: seq<Field>, pricingTiers: seq<Tier>,
    hasPayment: bool, hasAffiliate: bool, upsellEnabled: bool, freeOption: bool,
    maxSubmissions: Option<int>, startDate: string, endDate: string,
    isActive: Option<bool>, submissions: int)

  /** Backend records; an empty string stands for an absent or empty text attribute. */
  datatype BackendField = BackendField(
    id: Option<string>, caption: string, kind: string, isRequired: bool,
    placeholder: string, optionLabels: seq<string>)

  datatype BackendSection = BackendSection(id: Option<string>, title: string, icon: string, fields: seq<BackendField>)

  datatype BackendTier = BackendTier(id: Id, name: string, price: string, description: string)

  datatype BackendForm = BackendForm(
    id: Option<string>, slug: Option<string>, title: string, description: string,
    coverImage: string, categoryName: string,
    sections: seq<BackendSection>, pricingTiers: seq<BackendTier>,
    enablePayment: bool, enableAffiliate: bool, upsellEnabled: bool, freeOption: bool,
    maxSubmissions: int, startDate: string, endDate: string,
    isActive: Option<bool>, submissionsCount: int)

  const DefaultIcon := "FileText"
  const Uncategorized := "Uncategorized"

  /** The page's `tel` is the backend's `phone`; every other type is sent as is. */
  function SaveType(kind: string): (r: string)
    ensures kind != "tel" ==> r == kind
  {
    if kind == "tel" then "phone" else kind
  }

  function LoadType(kind: string): (r: string)
    ensures kind != "phone" ==> r == kind
    ensures r != "phone"
  {
    if kind == "phone" then "tel" else kind
  }

  /** Saving then loading gives every type back, except a page-side `phone`, which returns as `tel`. */
  lemma TypeRoundTrip(kind: string)
    ensures kind != "phone" ==> LoadType(SaveType(kind)) == kind
    ensures kind == "phone" ==> LoadType(SaveType(kind)) == "tel"
  {
  }

  predicate IsNotComma(c: char)
  {
    c != ','
  }

  predicate NoComma(s: string)
  {
    AllIn(s, IsNotComma)
  }

  /** A label as `OptionLabels` gives them: trimmed and free of commas. */
  predicate IsLabel(s: string)
  {
    NoComma(s) && Trim(s) == s
  }

  /** Trimming keeps a part free of commas and gives a trimmed part. */
  lemma TrimmedPart(part: string)
    requires NoComma(part)
    ensures NoComma(Trim(part)) && Trim(Trim(part)) == Trim(part)
  {
    TrimChars(part, IsNotComma);
    TrimIdempotent(part);
  }

  /** The labels `options.split(',')` gives after trimming each part. */
  function OptionLabels(options: string): (r: seq<string>)
    ensures |r| >= 1
    ensures forall i :: 0 <= i < |r| ==> IsLabel(r[i])
  {
    var parts := Split(options, [',']);
    SplitPartsFree(options, ',');
    assert forall i :: 0 <= i < |parts| ==> NoComma(parts[i]);
    var r := seq(|parts|, i requires 0 <= i < |parts| => Trim(parts[i]));
    forall i | 0 <= i < |r| ensures IsLabel(r[i]) {
      TrimmedPart(parts[i]);
    }
    r
  }

  /** `options.map(opt => opt.label).join(', ')`. */
  function JoinLabels(labels: seq<string>): string
  {
    Join(labels, ", ")
  }

  /** Every label after the first gets a leading space. */
  function Spaced(labels: seq<string>): (r: seq<string>)
    requires labels != []
    ensures |r| == |labels| && r[0] == labels[0]
    ensures forall i :: 1 <= i < |r| ==> r[i] == " " + labels[i]
  {
    [labels[0]] + seq(|labels| - 1, i requires 0 <= i < |labels| - 1 => " " + labels[i + 1])
  }

  lemma {:induction false} JoinSpaced(labels: seq<string>)
    requires labels != []
    ensures Join(labels, ", ") == Join(Spaced(labels), ",")
    decreases |labels|
  {
    if |labels| > 1 {
      var tail := labels[1..];
      JoinSpaced(tail);
      var rest := Spaced(tail);
      var spaced := Spaced(labels);
      assert labels == [labels[0]] + tail;
      assert spaced == [labels[0]] + ([" " + rest[0]] + rest[1..]);
      JoinCons(labels[0], tail, ", ");
      JoinCons(labels[0], [" " + rest[0]] + rest[1..], ",");
      JoinFirstExtended(" ", rest, ",");
      assert labels[0] + "," + (" " + Join(rest, ",")) == labels[0] + ", " + Join(rest, ",");
    }
  }

  lemma SpacedNoComma(labels: seq<string>)
    requires labels != []
    requires forall i :: 0 <= i < |labels| ==> NoComma(labels[i])
    ensures forall i, j :: 0 <= i < |Spaced(labels)| && 0 <= j < |Spaced(labels)[i]| ==> Spaced(labels)[i][j] != ','
  {
    var spaced := Spaced(labels);
    forall i, j | 0 <= i < |spaced| && 0 <= j < |spaced[i]| ensures spaced[i][j] != ',' {
      if i == 0 {
        assert IsNotComma(labels[0][j]);
      } else if j > 0 {
        assert spaced[i][j] == labels[i][j - 1];
        assert IsNotComma(labels[i][j - 1]);
      }
    }
  }

  lemma TrimSpaced(labels: seq<string>)
    requires labels != []
    requires forall i :: 0 <= i < |labels| ==> Trim(labels[i]) == labels[i]
    ensures forall i :: 0 <= i < |labels| ==> Trim(Spaced(labels)[i]) == labels[i]
  {
    var spaced := Spaced(labels);
    forall i | 0 <= i < |labels| ensures Trim(spaced[i]) == labels[i] {
      if i > 0 {
        assert spaced[i] == " " + labels[i];
        TrimLeadingSpace(labels[i]);
      }
    }
  }

  /** Trimmed labels without commas survive being joined with `', '` and split again. */
  lemma LabelsRoundTrip(labels: seq<string>)
    requires labels != []
    requires forall i :: 0 <= i < |labels| ==> IsLabel(labels[i])
    ensures OptionLabels(JoinLabels(labels)) == labels
  {
    var spaced := Spaced(labels);
    JoinSpaced(labels);
    SpacedNoComma(labels);
    SplitJoin(spaced, ',');
    assert Split(JoinLabels(labels), [',']) == spaced;
    TrimSpaced(labels);
  }

  /** The labels an editor string gives are stable under a save and load cycle. */
  lemma OptionsRoundTrip(options: string)
    ensures OptionLabels(JoinLabels(OptionLabels(options))) == OptionLabels(options)
  {
    LabelsRoundTrip(OptionLabels(options));
  }

  /** A backend section on the page: its id, or a minted one when it has none, and `FileText` when it has no icon. */
  function LoadSection(s: BackendSection, minted: string): (r: Section)
    ensures Truthy(s.id) ==> r.id == s.id.value
    ensures !Truthy(s.id) ==> r.id == minted
    ensures r.name == s.title && (s.icon != "" ==> r.icon == s.icon) && (s.icon == "" ==> r.icon == DefaultIcon)
  {
    Section(if Truthy(s.id) then s.id.value else minted, s.title, if s.icon != "" then s.icon else DefaultIcon)
  }

  /** A backend field on the page, owned by `owner`. */
  function LoadField(f: BackendField, owner: Option<string>, minted: string): (r: Field)
    ensures r.kind == LoadType(f.kind) && r.caption == f.caption && r.required == f.isRequired
    ensures r.options == JoinLabels(f.optionLabels) && r.sectionId == owner
    ensures r.id == if Truthy(f.id) then f.id.value else minted
  {
    Field(if Truthy(f.id) then f.id.value else minted, f.caption, LoadType(f.kind), f.isRequired,
      f.placeholder, JoinLabels(f.optionLabels), owner)
  }

  /** The sections of a loaded form; `mint(k)` is the id minted for section `k` when it has none. */
  function LoadSections(sections: seq<BackendSection>, mint: nat -> string): (r: seq<Section>)
    ensures |r| == |sections|
    ensures forall k :: 0 <= k < |sections| ==> r[k] == LoadSection(sections[k], mint(k))
  {
    seq(|sections|, k requires 0 <= k < |sections| => LoadSection(sections[k], mint(k)))
  }

  /** The fields of one backend section, owned by `owner`. */
  function SectionFields(s: BackendSection, owner: Option<string>, k: nat, mintField: (nat, nat) -> string): (r: seq<Field>)
    ensures |r| == |s.fields|
    ensures forall j :: 0 <= j < |r| ==> r[j] == LoadField(s.fields[j], owner, mintField(k, j))
  {
    seq(|s.fields|, j requires 0 <= j < |s.fields| => LoadField(s.fields[j], owner, mintField(k, j)))
  }

  /**
   * The `flatMap` over sections, as both pages write it: a field's
   * `sectionId` is the backend section's own `id`, even when that is absent
   * and the section was given a minted id.
   */
  function LoadFieldsAsWritten(sections: seq<BackendSection>, k: nat, mintField: (nat, nat) -> string): (r: seq<Field>)
    ensures forall i :: 0 <= i < |r| ==> exists m | 0 <= m < |sections| :: r[i].sectionId == sections[m].id
    decreases |sections|
  {
    if sections == [] then []
    else
      var head := SectionFields(sections[0], sections[0].id, k, mintField);
      var tail := LoadFieldsAsWritten(sections[1..], k + 1, mintField);
      assert forall i :: 0 <= i < |tail| ==> exists m | 0 <= m < |sections| :: tail[i].sectionId == sections[m].id by {
        forall i | 0 <= i < |tail| ensures exists m | 0 <= m < |sections| :: tail[i].sectionId == sections[m].id {
          var m :| 0 <= m < |sections[1..]| && tail[i].sectionId == sections[1..][m].id;
          assert tail[i].sectionId == sections[m + 1].id;
        }
      }
      head + tail
  }

  /**
   * The same `flatMap` with each field owned by the id its section was
   * actually given on the page.
   */
  function LoadFields(sections: seq<BackendSection>, k: nat, mint: nat -> string, mintField: (nat, nat) -> string): (r: seq<Field>)
    ensures forall i :: 0 <= i < |r| ==>
      exists m | 0 <= m < |sections| :: r[i].sectionId == Some(LoadSection(sections[m], mint(k + m)).id)
    decreases |sections|
  {
    if sections == [] then []
    else
      var head := SectionFields(sections[0], Some(LoadSection(sections[0], mint(k)).id), k, mintField);
      var tail := LoadFields(sections[1..], k + 1, mint, mintField);
      assert forall i :: 0 <= i < |head| ==> head[i].sectionId == Some(LoadSection(sections[0], mint(k + 0)).id);
      assert forall i :: 0 <= i < |tail| ==>
        exists m | 0 <= m < |sections| :: tail[i].sectionId == Some(LoadSection(sections[m], mint(k + m)).id) by {
        forall i | 0 <= i < |tail|
          ensures exists m | 0 <= m < |sections| :: tail[i].sectionId == Some(LoadSection(sections[m], mint(k + m)).id)
        {
          var m :| 0 <= m < |sections[1..]| && tail[i].sectionId == Some(LoadSection(sections[1..][m], mint(k + 1 + m)).id);
          assert sections[1..][m] == sections[m + 1];
        }
      }
      head + tail
  }

  /** `Gratis`, the free tier a form with `free_option` offers first. */
  const FreeTier := Tier(Num(0), "Gratis", 0, "Akses dasar")

  /** A backend tier on the page, its price read by `parseInt(price) || 0`. */
  function LoadTier(t: BackendTier): (r: Tier)
    ensures r.id == t.id && r.name == t.name && r.price == ParseIntOrZero(t.price)
    ensures r.features == if t.description != "" then t.description else t.name
  {
    Tier(t.id, t.name, ParseIntOrZero(t.price), if t.description != "" then t.description else t.name)
  }

  /** The free tier when the form offers it, then the backend's tiers in order. */
  function LoadTiers(freeOption: bool, tiers: seq<BackendTier>): (r: seq<Tier>)
    ensures |r| == |tiers| + (if freeOption then 1 else 0)
    ensures freeOption ==> r[0] == FreeTier
    ensures r[|r| - |tiers|..] == LoadedTiers(tiers)
  {
    var head := if freeOption then [FreeTier] else [];
    var loaded := LoadedTiers(tiers);
    assert (head + loaded)[|head|..] == loaded;
    head + loaded
  }

  function LoadedTiers(tiers: seq<BackendTier>): (r: seq<Tier>)
    ensures |r| == |tiers| && forall i :: 0 <= i < |tiers| ==> r[i] == LoadTier(tiers[i])
  {
    seq(|tiers|, i requires 0 <= i < |tiers| => LoadTier(tiers[i]))
  }

  /**
   * `parseInt(text) || 0`: leading whitespace and one sign are skipped, the
   * longest run of decimal digits is read, and text without digits gives 0.
   */
  function ParseIntOrZero(text: string): (r: int)
    ensures (forall i :: 0 <= i < |text| ==> !IsDigit(text[i])) ==> r == 0
    ensures (forall i :: 0 <= i < |text| ==> text[i] != '-') ==> r >= 0
  {
    var t := DropWhile(text, IsSpace);
    assert forall i :: 0 <= i < |t| ==> t[i] == text[|text| - |t| + i];
    SignedValue(t)
  }

  /** The value of a sign and the digits that follow it. */
  function SignedValue(t: string): int
  {
    if t != [] && t[0] == '-' then 0 - DigitsValue(LeadingDigits(t[1..]))
    else if t != [] && t[0] == '+' then DigitsValue(LeadingDigits(t[1..]))
    else DigitsValue(LeadingDigits(t))
  }

  /** The longest prefix of decimal digits. */
  function LeadingDigits(s: string): (r: string)
    ensures |r| <= |s| && r == s[..|r|] && AllIn(r, IsDigit)
    ensures |r| < |s| ==> !IsDigit(s[|r|])
  {
    if s != [] && IsDigit(s[0]) then [s[0]] + LeadingDigits(s[1..]) else []
  }

  /** The number a string of decimal digits denotes. */
  function DigitsValue(ds: string): (r: nat)
    requires AllIn(ds, IsDigit)
  {
    if ds == [] then 0 else 10 * DigitsValue(ds[..|ds| - 1]) + (ds[|ds| - 1] as int - '0' as int)
  }

  lemma {:induction false} DigitsOfNat(n: nat)
    ensures IntToString(n) != [] && AllIn(IntToString(n), IsDigit) && DigitsValue(IntToString(n)) == n
    decreases n
  {
    if n >= 10 {
      DigitsOfNat(n / 10);
      var s := IntToString(n);
      assert s[..|s| - 1] == IntToString(n / 10);
    }
  }

  lemma LeadingDigitsOf(ds: string, rest: string)
    requires AllIn(ds, IsDigit) && (rest == [] || !IsDigit(rest[0]))
    ensures LeadingDigits(ds + rest) == ds
    decreases |ds|
  {
    if ds != [] {
      assert (ds + rest)[1..] == ds[1..] + rest;
      LeadingDigitsOf(ds[1..], rest);
    } else {
      assert ds + rest == rest;
    }
  }

  lemma UnsignedValue(ds: string, rest: string)
    requires ds != [] && AllIn(ds, IsDigit) && (rest == [] || !IsDigit(rest[0]))
    ensures SignedValue(ds + rest) == DigitsValue(ds)
    ensures SignedValue("-" + (ds + rest)) == 0 - DigitsValue(ds)
  {
    LeadingDigitsOf(ds, rest);
    assert (ds + rest)[0] == ds[0];
    assert ("-" + (ds + rest))[1..] == ds + rest;
  }

  lemma NoLeadingSpace(t: string)
    requires t != [] && !IsSpace(t[0])
    ensures DropWhile(t, IsSpace) == t
  {
  }

  lemma ParseIntOfDigits(digits: string, rest: string)
    requires digits != [] && AllIn(digits, IsDigit) && (rest == [] || !IsDigit(rest[0]))
    ensures ParseIntOrZero(digits + rest) == DigitsValue(digits)
    ensures ParseIntOrZero("-" + (digits + rest)) == 0 - DigitsValue(digits)
  {
    var t := digits + rest;
    assert t[0] == digits[0];
    NoLeadingSpace(t);
    assert ParseIntOrZero(t) == SignedValue(t);
    var u := "-" + t;
    assert u[0] == '-';
    NoLeadingSpace(u);
    assert ParseIntOrZero(u) == SignedValue(u);
    UnsignedValue(digits, rest);
  }

  lemma Regroup(a: string, b: string, c: string)
    ensures (a + b) + c == a + (b + c)
  {
  }

  lemma NegativeRendering(n: int)
    requires n < 0
    ensures IntToString(n) == "-" + IntToString(-n)
  {
  }

  /**
   * A decimal rendering followed by text that does not start with a digit
   * (such as the `.00` of a backend price) reads back as the same number.
   */
  lemma ParseIntOfRendering(n: int, rest: string)
    requires rest == [] || !IsDigit(rest[0])
    ensures ParseIntOrZero(IntToString(n) + rest) == n
  {
    if n < 0 {
      ParseIntOfNegative(n, rest);
    } else {
      ParseIntOfNatural(n, rest);
    }
  }

  lemma ParseIntOfNatural(n: nat, rest: string)
    requires rest == [] || !IsDigit(rest[0])
    ensures ParseIntOrZero(IntToString(n) + rest) == n
  {
    DigitsOfNat(n);
    ParseIntOfDigits(IntToString(n), rest);
  }

  lemma ParseIntOfNegative(n: int, rest: string)
    requires n < 0 && (rest == [] || !IsDigit(rest[0]))
    ensures ParseIntOrZero(IntToString(n) + rest) == n
  {
    var digits := IntToString(-n);
    DigitsOfNat(-n);
    NegativeRendering(n);
    var text := IntToString(n) + rest;
    Regroup("-", digits, rest);
    assert text == "-" + (digits + rest);
    assert text[0] == '-' && text[1..] == digits + rest;
    NoLeadingSpace(text);
    LeadingDigitsOf(digits, rest);
    assert ParseIntOrZero(text) == SignedValue(text);
    assert SignedValue(text) == 0 - DigitsValue(digits);
  }
}
