/**
 * `src/schemas/categorySchema.js`: the folder (category) schema and
 * `validateCategory`. A field the caller leaves out is `None`.
 */
module CategorySchema {
  import opened Wrappers
  import opened JsStrings
  import opened Zod

  const NameRequired := "Nama folder harus diisi"
  const NameTooLong := "Nama folder maksimal 50 karakter"
  const NameCharset := "Nama folder hanya boleh mengandung huruf, angka, spasi, dan tanda hubung"
  const DescriptionTooLong := "Deskripsi maksimal 200 karakter"
  const IconRequired := "Icon harus dipilih"
  const ColorFormat := "Format warna harus hex valid (contoh: #FF0000)"
  const ColorLength := "Format warna harus 7 karakter"

  predicate IsNameChar(c: char)
  {
    IsUpper(c) || IsLower(c) || IsDigit(c) || IsSpace(c) || c == '-'
  }

  /** `/^[a-zA-Z0-9\s\-]+$/`. */
  predicate NamePattern(s: string)
  {
    |s| >= 1 && AllIn(s, IsNameChar)
  }

  /** `/^#[0-9A-F]{6}$/i`. */
  predicate ColorPattern(s: string)
  {
    |s| == 7 && s[0] == '#' && AllIn(s[1..], IsHexDigit)
  }

  const NameSteps := [MinLength(1, NameRequired), MaxLength(50, NameTooLong), Pattern(NamePattern, NameCharset), TrimStep]
  const DescriptionSteps := [MaxLength(200, DescriptionTooLong)]
  const IconSteps := [MinLength(1, IconRequired)]
  const ColorSteps := [Pattern(ColorPattern, ColorFormat), MinLength(7, ColorLength), MaxLength(7, ColorLength)]

  datatype CategoryInput = CategoryInput(name: Option<string>, description: Option<string>, icon: Option<string>, color: Option<string>)

  datatype Category = Category(name: string, description: Option<string>, icon: string, color: string)

  /** The constraints on each field, as the schema states them for the value as given. */
  predicate NameAccepted(name: Option<string>)
  {
    name.Some? && 1 <= |name.value| <= 50 && AllIn(name.value, IsNameChar)
  }

  /** An optional description passes when absent or at most 200 characters. */
  predicate DescriptionAccepted(description: Option<string>)
  {
    description.None? || |description.value| <= 200
  }

  /** The `icon` field passes: present and non-empty. */
  predicate IconAccepted(icon: Option<string>)
  {
    icon.Some? && icon.value != ""
  }

  /** The `color` field passes: `#` followed by six hexadecimal digits. */
  predicate ColorAccepted(color: Option<string>)
  {
    color.Some? && |color.value| == 7 && color.value[0] == '#' && AllIn(color.value[1..], IsHexDigit)
  }

  /** The category form passes exactly when its four fields do. */
  predicate Accepted(input: CategoryInput)
  {
    NameAccepted(input.name) && DescriptionAccepted(input.description)
    && IconAccepted(input.icon) && ColorAccepted(input.color)
  }

  /**
   * `string().max(200).optional().or(literal(''))`: a missing description is
   * fine; a string goes through the first option, whose issues are the ones
   * reported when neither option is clean.
   */
  function DescriptionProperty(description: Option<string>): (r: Property)
    ensures Keyed(r.issues, "description")
    ensures r.value == description
    ensures r.issues == [] <==> DescriptionAccepted(description)
  {
    match description
    case None => Property(None, [])
    case Some(_) =>
      var p := StringProperty("description", description, DescriptionSteps);
      assert Messages(description.value, DescriptionSteps)
        == Raised(DescriptionSteps[0], description.value) + Messages(description.value, []);
      assert Output(description.value, DescriptionSteps) == Output(description.value, []);
      p
  }

  lemma {:induction false} NameProperty(name: Option<string>)
    ensures StringProperty("name", name, NameSteps).issues == [] <==> NameAccepted(name)
    ensures name.Some? ==> StringProperty("name", name, NameSteps).value == Some(Trim(name.value))
  {
    if name.Some? {
      var s := name.value;
      PropertyClean("name", s, NameSteps);
      MinMaxPatternTrim(s, 1, 50, NamePattern, NameRequired, NameTooLong, NameCharset);
    }
  }

  lemma {:induction false} IconProperty(icon: Option<string>)
    ensures StringProperty("icon", icon, IconSteps).issues == [] <==> IconAccepted(icon)
  {
    if icon.Some? {
      PlainMessages(icon.value, IconSteps);
    }
  }

  lemma {:induction false} ColorProperty(color: Option<string>)
    ensures StringProperty("color", color, ColorSteps).issues == [] <==> ColorAccepted(color)
  {
    if color.Some? {
      var s := color.value;
      PlainMessages(s, ColorSteps);
      assert (forall i :: 0 <= i < |ColorSteps| ==> !Fails(ColorSteps[i], s))
        <==> !Fails(ColorSteps[0], s) && !Fails(ColorSteps[1], s) && !Fails(ColorSteps[2], s);
    }
  }

  /** The issues of the four properties, in declaration order. */
  function Issues(input: CategoryInput): (r: seq<Issue>)
  {
    StringProperty("name", input.name, NameSteps).issues
    + DescriptionProperty(input.description).issues
    + StringProperty("icon", input.icon, IconSteps).issues
    + StringProperty("color", input.color, ColorSteps).issues
  }

  lemma IssuesEmpty(input: CategoryInput)
    ensures Issues(input) == [] <==> Accepted(input)
    ensures Issues(input) == [] ==> StringProperty("name", input.name, NameSteps).value == Some(Trim(input.name.value))
  {
    NameProperty(input.name);
    IconProperty(input.icon);
    ColorProperty(input.color);
  }

  /**
   * `validateCategory(data)`: success with the parsed category (its name
   * trimmed) exactly when every constraint holds on the values as given;
   * otherwise at least one error, each naming one of the four fields.
   */
  function ValidateCategory(input: CategoryInput): (r: Validation<Category>)
    ensures r.Valid? <==> Accepted(input)
    ensures r.Valid? ==>
      r.data == Category(Trim(input.name.value), input.description, input.icon.value, input.color.value)
    ensures r.Invalid? ==> |r.errors| > 0 && r.errors == FieldErrors(Issues(input))
  {
    IssuesEmpty(input);
    var issues := Issues(input);
    if issues == [] then
      Valid(Category(Trim(input.name.value), input.description, input.icon.value, input.color.value))
    else
      Invalid(FieldErrors(issues))
  }

  /** Each field is named by some error exactly when its own constraint fails. */
  lemma FieldsReported(input: CategoryInput)
    requires !Accepted(input)
    ensures Reports(ValidateCategory(input).errors, "name") <==> !NameAccepted(input.name)
    ensures Reports(ValidateCategory(input).errors, "description") <==> !DescriptionAccepted(input.description)
    ensures Reports(ValidateCategory(input).errors, "icon") <==> !IconAccepted(input.icon)
    ensures Reports(ValidateCategory(input).errors, "color") <==> !ColorAccepted(input.color)
  {
    NameProperty(input.name);
    IconProperty(input.icon);
    ColorProperty(input.color);
    var a := StringProperty("name", input.name, NameSteps).issues;
    var b := DescriptionProperty(input.description).issues;
    var c := StringProperty("icon", input.icon, IconSteps).issues;
    var d := StringProperty("color", input.color, ColorSteps).issues;
    assert ValidateCategory(input).errors == FieldErrors(a + b + c + d);
    FourGroups(a, b, c, d, "name", "description", "icon", "color");
  }
}
