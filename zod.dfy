/**
 * The part of Zod's string and object parsing that the form schemas use.
 * A string schema is a list of steps run in declaration order: a failing
 * check records its message and parsing goes on; `trim` and `toLowerCase`
 * replace the value seen by the steps after them. An object reports the
 * issues of its properties in declaration order, each under its key; a
 * property that is missing is `Required` and aborts the object.
 */
module Zod {
  import opened Wrappers
  import opened JsStrings

  datatype Step =
    | MinLength(n: nat, message: string)
    | MaxLength(n: nat, message: string)
    | Pattern(test: string -> bool, message: string)
    | TrimStep
    | LowerStep

  predicate IsTransform(step: Step)
  {
    step.TrimStep? || step.LowerStep?
  }

  /** The steps before any transform: pure checks. */
  predicate Plain(steps: seq<Step>)
  {
    forall i :: 0 <= i < |steps| ==> !IsTransform(steps[i])
  }

  /** Whether a check step rejects the (transformed) string. */
  predicate Fails(step: Step, s: string)
  {
    match step
    case MinLength(n, _) => |s| < n
    case MaxLength(n, _) => |s| > n
    case Pattern(test, _) => !test(s)
    case _ => false
  }

  /** The message a step raises on `s`, if any. */
  function Raised(step: Step, s: string): (r: seq<string>)
    ensures |r| <= 1 && (r == [] <==> !Fails(step, s))
  {
    match step
    case MinLength(n, message) => if |s| < n then [message] else []
    case MaxLength(n, message) => if |s| > n then [message] else []
    case Pattern(test, message) => if !test(s) then [message] else []
    case _ => []
  }

  /** The value a step hands to the next one. */
  function Apply(step: Step, s: string): string
  {
    match step
    case TrimStep => Trim(s)
    case LowerStep => Lower(s)
    case _ => s
  }

  /** The messages the steps raise, in order. */
  function Messages(s: string, steps: seq<Step>): (r: seq<string>)
    ensures |r| <= |steps|
    decreases |steps|
  {
    if steps == [] then [] else Raised(steps[0], s) + Messages(Apply(steps[0], s), steps[1..])
  }

  /** The value the steps hand back. */
  function Output(s: string, steps: seq<Step>): string
    decreases |steps|
  {
    if steps == [] then s else Output(Apply(steps[0], s), steps[1..])
  }

  /** Plain checks raise no message exactly when each of them holds, and leave the value alone. */
  lemma {:induction false} PlainMessages(s: string, steps: seq<Step>)
    requires Plain(steps)
    ensures Messages(s, steps) == [] <==> forall i :: 0 <= i < |steps| ==> !Fails(steps[i], s)
    ensures Output(s, steps) == s
    decreases |steps|
  {
    if steps != [] {
      assert Apply(steps[0], s) == s;
      PlainMessages(s, steps[1..]);
      assert forall i :: 1 <= i < |steps| ==> steps[i] == steps[1..][i - 1];
    }
  }

  /** Running two lists of steps one after the other. */
  lemma {:induction false} StepsAppend(s: string, first: seq<Step>, rest: seq<Step>)
    ensures Messages(s, first + rest) == Messages(s, first) + Messages(Output(s, first), rest)
    ensures Output(s, first + rest) == Output(Output(s, first), rest)
    decreases |first|
  {
    if first != [] {
      assert (first + rest)[0] == first[0];
      assert (first + rest)[1..] == first[1..] + rest;
      StepsAppend(Apply(first[0], s), first[1..], rest);
    } else {
      assert first + rest == rest;
    }
  }

  /** Checks followed by transforms only: the checks decide, the transforms shape the value. */
  lemma ChecksThen(s: string, checks: seq<Step>, transforms: seq<Step>)
    requires Plain(checks) && forall i :: 0 <= i < |transforms| ==> IsTransform(transforms[i])
    ensures Messages(s, checks + transforms) == [] <==> forall i :: 0 <= i < |checks| ==> !Fails(checks[i], s)
    ensures Output(s, checks + transforms) == Output(s, transforms)
  {
    PlainMessages(s, checks);
    StepsAppend(s, checks, transforms);
    TransformsSilent(s, transforms);
  }

  lemma {:induction false} TransformsSilent(s: string, transforms: seq<Step>)
    requires forall i :: 0 <= i < |transforms| ==> IsTransform(transforms[i])
    ensures Messages(s, transforms) == []
    decreases |transforms|
  {
    if transforms != [] {
      assert Raised(transforms[0], s) == [];
      TransformsSilent(Apply(transforms[0], s), transforms[1..]);
    }
  }

  /** A recorded issue: the path to the value and the message. */
  datatype Issue = Issue(path: seq<string>, message: string)

  /** What the validators report per issue: `err.path.join('.')` and the message. */
  datatype FieldError = FieldError(field: string, message: string)

  const RequiredMessage := "Required"

  /** A string property of an object schema, its result value and its issues. */
  datatype Property = Property(value: Option<string>, issues: seq<Issue>)

  function StringProperty(key: string, given: Option<string>, steps: seq<Step>): (r: Property)
    ensures Keyed(r.issues, key)
    ensures given.None? ==> r.value.None? && r.issues == [Issue([key], RequiredMessage)]
    ensures given.Some? ==> r.value == Some(Output(given.value, steps)) && |r.issues| == |Messages(given.value, steps)|
    ensures given.Some? ==> forall i :: 0 <= i < |r.issues| ==> r.issues[i] == Issue([key], Messages(given.value, steps)[i])
  {
    match given
    case None => Property(None, [Issue([key], RequiredMessage)])
    case Some(s) =>
      var messages := Messages(s, steps);
      Property(Some(Output(s, steps)), seq(|messages|, i requires 0 <= i < |messages| => Issue([key], messages[i])))
  }

  /** One step, then the rest: its own message first, the rest run on the value it hands on. */
  lemma Unfold(s: string, step: Step, rest: seq<Step>)
    ensures Messages(s, [step] + rest) == Raised(step, s) + Messages(Apply(step, s), rest)
    ensures Output(s, [step] + rest) == Output(Apply(step, s), rest)
  {
    assert ([step] + rest)[1..] == rest;
  }

  lemma Listed3(a: Step, b: Step, c: Step)
    ensures [a] + ([b] + ([c] + [])) == [a, b, c]
  {
  }

  lemma Listed4(a: Step, b: Step, c: Step, d: Step)
    ensures [a] + ([b] + ([c] + ([d] + []))) == [a, b, c, d]
  {
  }

  lemma Listed5(a: Step, b: Step, c: Step, d: Step, e: Step)
    ensures [a] + ([b] + ([c] + ([d] + ([e] + [])))) == [a, b, c, d, e]
  {
  }

  /** A length range, then a trim: clean exactly for a length in range; the value comes back trimmed. */
  lemma MinMaxTrim(s: string, lo: nat, hi: nat, m1: string, m2: string)
    ensures Messages(s, [MinLength(lo, m1), MaxLength(hi, m2), TrimStep]) == [] <==> lo <= |s| <= hi
    ensures Output(s, [MinLength(lo, m1), MaxLength(hi, m2), TrimStep]) == Trim(s)
  {
    var s3 := [TrimStep] + [];
    Unfold(s, TrimStep, []);
    var s2 := [MaxLength(hi, m2)] + s3;
    Unfold(s, MaxLength(hi, m2), s3);
    Unfold(s, MinLength(lo, m1), s2);
    Listed3(MinLength(lo, m1), MaxLength(hi, m2), TrimStep);
  }

  /** A length range and a pattern, then a trim. */
  lemma MinMaxPatternTrim(s: string, lo: nat, hi: nat, test: string -> bool, m1: string, m2: string, m3: string)
    ensures Messages(s, [MinLength(lo, m1), MaxLength(hi, m2), Pattern(test, m3), TrimStep]) == []
      <==> lo <= |s| <= hi && test(s)
    ensures Output(s, [MinLength(lo, m1), MaxLength(hi, m2), Pattern(test, m3), TrimStep]) == Trim(s)
  {
    var s4 := [TrimStep] + [];
    Unfold(s, TrimStep, []);
    var s3 := [Pattern(test, m3)] + s4;
    Unfold(s, Pattern(test, m3), s4);
    var s2 := [MaxLength(hi, m2)] + s3;
    Unfold(s, MaxLength(hi, m2), s3);
    Unfold(s, MinLength(lo, m1), s2);
    Listed4(MinLength(lo, m1), MaxLength(hi, m2), Pattern(test, m3), TrimStep);
  }

  /** A minimum length, a pattern and a maximum length, then a trim and a lower-casing. */
  lemma MinPatternMaxTrimLower(s: string, lo: nat, test: string -> bool, hi: nat, m1: string, m2: string, m3: string)
    ensures Messages(s, [MinLength(lo, m1), Pattern(test, m2), MaxLength(hi, m3), TrimStep, LowerStep]) == []
      <==> lo <= |s| <= hi && test(s)
    ensures Output(s, [MinLength(lo, m1), Pattern(test, m2), MaxLength(hi, m3), TrimStep, LowerStep]) == Lower(Trim(s))
  {
    var s5 := [LowerStep] + [];
    Unfold(Trim(s), LowerStep, []);
    var s4 := [TrimStep] + s5;
    Unfold(s, TrimStep, s5);
    var s3 := [MaxLength(hi, m3)] + s4;
    Unfold(s, MaxLength(hi, m3), s4);
    var s2 := [Pattern(test, m2)] + s3;
    Unfold(s, Pattern(test, m2), s3);
    Unfold(s, MinLength(lo, m1), s2);
    Listed5(MinLength(lo, m1), Pattern(test, m2), MaxLength(hi, m3), TrimStep, LowerStep);
  }

  /** A given string property raises no issue exactly when its steps raise no message. */
  lemma PropertyClean(key: string, s: string, steps: seq<Step>)
    ensures StringProperty(key, Some(s), steps).issues == [] <==> Messages(s, steps) == []
    ensures StringProperty(key, Some(s), steps).value == Some(Output(s, steps))
  {
  }

  /** `error.errors.map(err => ({field: err.path.join('.'), message: err.message}))`. */
  function FieldErrors(issues: seq<Issue>): (r: seq<FieldError>)
    ensures |r| == |issues|
    ensures forall i :: 0 <= i < |issues| ==> r[i] == FieldError(Join(issues[i].path, "."), issues[i].message)
  {
    seq(|issues|, i requires 0 <= i < |issues| => FieldError(Join(issues[i].path, "."), issues[i].message))
  }

  /** Every issue sits directly under `key`. */
  predicate Keyed(issues: seq<Issue>, key: string)
  {
    forall i :: 0 <= i < |issues| ==> issues[i].path == [key]
  }

  /** No issue is reported under the field name `key`. */
  predicate Elsewhere(issues: seq<Issue>, key: string)
  {
    forall i :: 0 <= i < |issues| ==> Join(issues[i].path, ".") != key
  }

  /** Whether some field error names `field`. */
  predicate Reports(errors: seq<FieldError>, field: string)
  {
    exists i | 0 <= i < |errors| :: errors[i].field == field
  }

  lemma KeyedElsewhere(issues: seq<Issue>, key: string, other: string)
    requires Keyed(issues, key) && key != other
    ensures Elsewhere(issues, other)
  {
    forall i | 0 <= i < |issues| ensures Join(issues[i].path, ".") != other {
      assert issues[i].path == [key];
    }
  }

  lemma ElsewhereAppend(a: seq<Issue>, b: seq<Issue>, key: string)
    requires Elsewhere(a, key) && Elsewhere(b, key)
    ensures Elsewhere(a + b, key)
  {
    forall i | 0 <= i < |a + b| ensures Join((a + b)[i].path, ".") != key {
      if i >= |a| {
        assert (a + b)[i] == b[i - |a|];
      }
    }
  }

  /**
   * Among issues grouped by property, the field `key` is reported exactly
   * when the group of that property is not empty.
   */
  lemma ReportedIff(before: seq<Issue>, group: seq<Issue>, after: seq<Issue>, key: string)
    requires Keyed(group, key) && Elsewhere(before, key) && Elsewhere(after, key)
    ensures Reports(FieldErrors(before + group + after), key) <==> group != []
  {
    var issues := before + group + after;
    var errors := FieldErrors(issues);
    if group != [] {
      assert issues[|before|] == group[0];
      assert errors[|before|].field == key;
    } else {
      forall i | 0 <= i < |errors| ensures errors[i].field != key {
        if i < |before| {
          assert issues[i] == before[i];
        } else {
          assert issues[i] == after[i - |before|];
        }
      }
    }
  }

  /** Four property groups under four distinct keys: each key is reported exactly when its group is not empty. */
  lemma FourGroups(a: seq<Issue>, b: seq<Issue>, c: seq<Issue>, d: seq<Issue>,
                   ka: string, kb: string, kc: string, kd: string)
    requires Keyed(a, ka) && Keyed(b, kb) && Keyed(c, kc) && Keyed(d, kd)
    requires ka != kb && ka != kc && ka != kd && kb != kc && kb != kd && kc != kd
    ensures Reports(FieldErrors(a + b + c + d), ka) <==> a != []
    ensures Reports(FieldErrors(a + b + c + d), kb) <==> b != []
    ensures Reports(FieldErrors(a + b + c + d), kc) <==> c != []
    ensures Reports(FieldErrors(a + b + c + d), kd) <==> d != []
  {
    KeyedElsewhere(a, ka, kb);
    KeyedElsewhere(a, ka, kc);
    KeyedElsewhere(a, ka, kd);
    KeyedElsewhere(b, kb, ka);
    KeyedElsewhere(b, kb, kc);
    KeyedElsewhere(b, kb, kd);
    KeyedElsewhere(c, kc, ka);
    KeyedElsewhere(c, kc, kb);
    KeyedElsewhere(c, kc, kd);
    KeyedElsewhere(d, kd, ka);
    KeyedElsewhere(d, kd, kb);
    KeyedElsewhere(d, kd, kc);
    ElsewhereAppend(b, c, ka);
    ElsewhereAppend(b + c, d, ka);
    assert a + b + c + d == [] + a + (b + c + d);
    ReportedIff([], a, b + c + d, ka);
    ElsewhereAppend(c, d, kb);
    assert a + b + c + d == a + b + (c + d);
    ReportedIff(a, b, c + d, kb);
    ElsewhereAppend(a, b, kc);
    ReportedIff(a + b, c, d, kc);
    ElsewhereAppend(a, b, kd);
    ElsewhereAppend(a + b, c, kd);
    assert a + b + c + d == a + b + c + d + [];
    ReportedIff(a + b + c, d, [], kd);
  }

  /** The shape `validate*` return: the parsed data, or a list of field errors. */
  datatype Validation<T> = Valid(data: T) | Invalid(errors: seq<FieldError>)
}
