/** The three-step registration wizard of `src/pages/Register.tsx`: the zod
    field rules of the three step schemas, the per-step and per-field
    validators, and the form state (`currentStep`, `errors`, `touched`,
    `formData`, `isSubmitting`) updated in place by the event handlers. */
module Registration {
  import opened Wrappers
  import opened Text

  /** The ten form fields, in the order of `formData`: first_name,
      last_name, email, phone, company, position, experience_level,
      preferred_training, start_date, motivation. */
  datatype Field = FirstName | LastName | Email | Phone | Company | Position
                 | ExperienceLevel | PreferredTraining | StartDate | Motivation

  const AllFields: set<Field> := {FirstName, LastName, Email, Phone, Company, Position,
                                  ExperienceLevel, PreferredTraining, StartDate, Motivation}

  /** The rule of a zod string schema an issue reports; it stands for the
      issue's message, whose text is not modelled. */
  datatype Check = TooShort | TooLong | NotEmail | BadFormat

  /** One zod issue: the field it is about (`err.path[0]`) and the rule that failed. */
  datatype Issue = Issue(path: Field, check: Check)

  /** A character of the class `[\d\s-]`. */
  predicate PhoneChar(c: char) {
    IsDigit(c) || IsSpace(c) || c == '-'
  }

  /** The regular expression `^[+]?[\d\s-]+$`: an optional leading `+`, then
      one or more digits, spaces or dashes. Since `+` is not in the class, a
      leading `+` can only be matched by the optional part. */
  predicate PhonePattern(s: string) {
    var body := if |s| > 0 && s[0] == '+' then s[1..] else s;
    |body| >= 1 && forall i :: 0 <= i < |body| ==> PhoneChar(body[i])
  }

  /** `[i]` when `failed`, nothing otherwise. */
  function IssueIf(failed: bool, i: Issue): seq<Issue> {
    if failed then [i] else []
  }

  /** The issues of `.min(lo).max(hi)`, in the order zod runs the checks. */
  function LengthIssues(f: Field, s: string, lo: nat, hi: nat): seq<Issue> {
    IssueIf(|s| < lo, Issue(f, TooShort)) + IssueIf(|s| > hi, Issue(f, TooLong))
  }

  /** The issues the step schemas report for the value of one field. zod
      runs every check of a field (it does not stop at the first failure),
      after `.trim()` where the schema has it. */
  function SchemaIssues(isEmail: string -> bool, f: Field, v: string): seq<Issue> {
    match f
    case FirstName => LengthIssues(f, Trim(v), 2, 100)
    case LastName => LengthIssues(f, Trim(v), 2, 100)
    case Email => IssueIf(!isEmail(Trim(v)), Issue(f, NotEmail)) + IssueIf(|Trim(v)| > 255, Issue(f, TooLong))
    case Phone => LengthIssues(f, Trim(v), 8, 20) + IssueIf(!PhonePattern(Trim(v)), Issue(f, BadFormat))
    case Company => LengthIssues(f, Trim(v), 2, 200)
    case Position => LengthIssues(f, Trim(v), 2, 100)
    case ExperienceLevel => []
    case PreferredTraining => IssueIf(|v| < 1, Issue(f, TooShort))
    case StartDate => IssueIf(|v| < 1, Issue(f, TooShort))
    case Motivation => IssueIf(|v| > 2000, Issue(f, TooLong))
  }

  /** The rule each field must satisfy in its step schema, stated directly. */
  predicate FieldAccepted(isEmail: string -> bool, f: Field, v: string) {
    match f
    case FirstName => 2 <= |Trim(v)| <= 100
    case LastName => 2 <= |Trim(v)| <= 100
    case Email => isEmail(Trim(v)) && |Trim(v)| <= 255
    case Phone => 8 <= |Trim(v)| <= 20 && PhonePattern(Trim(v))
    case Company => 2 <= |Trim(v)| <= 200
    case Position => 2 <= |Trim(v)| <= 100
    case ExperienceLevel => true
    case PreferredTraining => |v| >= 1
    case StartDate => |v| >= 1
    case Motivation => |v| <= 2000
  }

  /** The issues of one length rule are about its field, and there are none
      exactly when the length is within the bounds. */
  lemma LengthIssuesRule(f: Field, s: string, lo: nat, hi: nat)
    ensures LengthIssues(f, s, lo, hi) == [] <==> lo <= |s| <= hi
    ensures forall i :: i in LengthIssues(f, s, lo, hi) ==> i.path == f
  {
  }

  /** Every issue a field's schema reports is about that field. */
  lemma SchemaIssuesNameField(isEmail: string -> bool, f: Field, v: string)
    ensures forall i :: i in SchemaIssues(isEmail, f, v) ==> i.path == f
  {
    var t := Trim(v);
    match f
    case FirstName => LengthIssuesRule(f, t, 2, 100);
    case LastName => LengthIssuesRule(f, t, 2, 100);
    case Email =>
    case Phone =>
      var a, b := LengthIssues(f, t, 8, 20), IssueIf(!PhonePattern(t), Issue(f, BadFormat));
      LengthIssuesRule(f, t, 8, 20);
      assert forall i :: i in a + b ==> i in a || i in b;
    case Company => LengthIssuesRule(f, t, 2, 200);
    case Position => LengthIssuesRule(f, t, 2, 100);
    case ExperienceLevel =>
    case PreferredTraining =>
    case StartDate =>
    case Motivation =>
  }

  /** A field's schema reports nothing exactly when the field satisfies its
      rule, and every issue it reports is about that field. */
  lemma SchemaIssuesMatchRule(isEmail: string -> bool, f: Field, v: string)
    ensures SchemaIssues(isEmail, f, v) == [] <==> FieldAccepted(isEmail, f, v)
    ensures forall i :: i in SchemaIssues(isEmail, f, v) ==> i.path == f
  {
    SchemaIssuesNameField(isEmail, f, v);
    var t := Trim(v);
    match f
    case FirstName => LengthIssuesRule(f, t, 2, 100);
    case LastName => LengthIssuesRule(f, t, 2, 100);
    case Email =>
    case Phone => LengthIssuesRule(f, t, 8, 20);
    case Company => LengthIssuesRule(f, t, 2, 200);
    case Position => LengthIssuesRule(f, t, 2, 100);
    case ExperienceLevel =>
    case PreferredTraining =>
    case StartDate =>
    case Motivation =>
  }

  /** The fields each step schema covers, in declaration order. */
  function StepFields(step: int): (fs: seq<Field>)
    requires 1 <= step <= 3
    ensures forall f :: f in fs ==> f in AllFields
  {
    if step == 1 then [FirstName, LastName, Email, Phone]
    else if step == 2 then [Company, Position, ExperienceLevel]
    else [PreferredTraining, StartDate, Motivation]
  }

  /** zod's issue list for an object schema over `fs`: field by field, in order. */
  function IssuesOf(isEmail: string -> bool, fs: seq<Field>, data: map<Field, string>): seq<Issue>
    requires forall f :: f in fs ==> f in data
  {
    if fs == [] then [] else SchemaIssues(isEmail, fs[0], data[fs[0]]) + IssuesOf(isEmail, fs[1..], data)
  }

  /** `stepNSchema.safeParse(...)` on the form data: its issues. */
  function StepIssues(isEmail: string -> bool, step: int, data: map<Field, string>): seq<Issue>
    requires 1 <= step <= 3
    requires AllFields <= data.Keys
  {
    IssuesOf(isEmail, StepFields(step), data)
  }

  /** The fields some issue is about. */
  function Paths(issues: seq<Issue>): set<Field> {
    set i | i in issues :: i.path
  }

  lemma PathsAppend(a: seq<Issue>, b: seq<Issue>)
    ensures Paths(a + b) == Paths(a) + Paths(b)
  {
    forall f | f in Paths(a + b) ensures f in Paths(a) + Paths(b) {
      var i :| i in a + b && i.path == f;
      assert i in a || i in b;
    }
    forall f | f in Paths(a) + Paths(b) ensures f in Paths(a + b) {
      if f in Paths(a) {
        var i :| i in a && i.path == f;
        assert i in a + b;
      } else {
        var i :| i in b && i.path == f;
        assert i in a + b;
      }
    }
  }

  /** The fields with issues are exactly the fields of `fs` that break their rule. */
  lemma {:induction false} IssuesOfReportFailingFields(isEmail: string -> bool, fs: seq<Field>, data: map<Field, string>)
    requires forall f :: f in fs ==> f in data
    ensures Paths(IssuesOf(isEmail, fs, data)) == set f | f in fs && !FieldAccepted(isEmail, f, data[f])
  {
    if fs != [] {
      var head := SchemaIssues(isEmail, fs[0], data[fs[0]]);
      IssuesOfReportFailingFields(isEmail, fs[1..], data);
      PathsAppend(head, IssuesOf(isEmail, fs[1..], data));
      SchemaIssuesMatchRule(isEmail, fs[0], data[fs[0]]);
      if head == [] {
        assert Paths(head) == {};
      } else {
        assert head[0] in head;
        assert Paths(head) == {fs[0]};
      }
      assert forall f :: f in fs <==> f == fs[0] || f in fs[1..];
    }
  }

  /** A step is accepted exactly when every field of the step satisfies its
      rule; when it is not, the fields its issues name are exactly the
      failing fields of the step. */
  lemma StepIssuesReportFailingFields(isEmail: string -> bool, step: int, data: map<Field, string>)
    requires 1 <= step <= 3
    requires AllFields <= data.Keys
    ensures Paths(StepIssues(isEmail, step, data))
         == set f | f in StepFields(step) && !FieldAccepted(isEmail, f, data[f])
    ensures StepIssues(isEmail, step, data) == []
        <==> forall f :: f in StepFields(step) ==> FieldAccepted(isEmail, f, data[f])
  {
    var issues := StepIssues(isEmail, step, data);
    var failing := set f | f in StepFields(step) && !FieldAccepted(isEmail, f, data[f]);
    IssuesOfReportFailingFields(isEmail, StepFields(step), data);
    if issues != [] {
      assert issues[0].path in Paths(issues);
      assert issues[0].path in failing;
    } else {
      assert failing == {};
      forall f | f in StepFields(step) ensures FieldAccepted(isEmail, f, data[f]) {
        assert f !in failing;
      }
    }
  }

  /** The error map the `forEach` loop of `validateStep` builds: issue by
      issue, each one overwriting the entry of its field. */
  function LastMessages(issues: seq<Issue>): map<Field, Check> {
    if issues == [] then map[]
    else
      var last := issues[|issues| - 1];
      LastMessages(issues[..|issues| - 1])[last.path := last.check]
  }

  /** The loop of `validateStep` that turns the issue list into the new error map. */
  method CollectErrors(issues: seq<Issue>) returns (newErrors: map<Field, Check>)
    ensures newErrors == LastMessages(issues)
  {
    newErrors := map[];
    for k := 0 to |issues|
      invariant newErrors == LastMessages(issues[..k])
    {
      var err := issues[k];
      assert issues[..k + 1][..k] == issues[..k];
      newErrors := newErrors[err.path := err.check];
    }
    assert issues[..|issues|] == issues;
  }

  /** The error map has an entry for exactly the fields some issue names. */
  lemma {:induction false} LastMessagesKeys(issues: seq<Issue>)
    ensures LastMessages(issues).Keys == Paths(issues)
  {
    if issues != [] {
      var init := issues[..|issues| - 1];
      LastMessagesKeys(init);
      assert issues == init + [issues[|issues| - 1]];
      PathsAppend(init, [issues[|issues| - 1]]);
      assert Paths([issues[|issues| - 1]]) == {issues[|issues| - 1].path};
    }
  }

  /** A field reported several times keeps the message of its last issue. */
  lemma {:induction false} LastMessagesLastWins(issues: seq<Issue>, f: Field)
    requires f in LastMessages(issues)
    ensures exists k :: 0 <= k < |issues| && issues[k].path == f && LastMessages(issues)[f] == issues[k].check
                        && forall j :: k < j < |issues| ==> issues[j].path != f
  {
    var n := |issues|;
    var init := issues[..n - 1];
    if issues[n - 1].path == f {
      assert issues[n - 1].path == f && LastMessages(issues)[f] == issues[n - 1].check;
    } else {
      LastMessagesLastWins(init, f);
      var k :| 0 <= k < |init| && init[k].path == f && LastMessages(init)[f] == init[k].check
               && forall j :: k < j < |init| ==> init[j].path != f;
      assert issues[k] == init[k];
      assert forall j :: k < j < n ==> issues[j].path != f by {
        forall j | k < j < n ensures issues[j].path != f {
          if j < n - 1 { assert issues[j] == init[j]; }
        }
      }
    }
  }

  /** The issues of the inline schema `validateField` builds for a field, or
      None for the fields it has no case for (it then returns early). Unlike
      the step schema, the inline phone schema has no maximum length. */
  function InlineIssues(isEmail: string -> bool, f: Field, v: string): Option<seq<Issue>> {
    match f
    case FirstName => Some(LengthIssues(f, Trim(v), 2, 100))
    case LastName => Some(LengthIssues(f, Trim(v), 2, 100))
    case Email => Some(IssueIf(!isEmail(Trim(v)), Issue(f, NotEmail)) + IssueIf(|Trim(v)| > 255, Issue(f, TooLong)))
    case Phone => Some(IssueIf(|Trim(v)| < 8, Issue(f, TooShort)) + IssueIf(!PhonePattern(Trim(v)), Issue(f, BadFormat)))
    case Company => Some(LengthIssues(f, Trim(v), 2, 200))
    case Position => Some(LengthIssues(f, Trim(v), 2, 100))
    case _ => None
  }

  /** The inline rules agree with the step rules on every field they cover
      except the phone, where a trimmed value longer than 20 characters
      passes inline and still fails its step (the input's `maxLength` of 20,
      not modelled, stops such a value from being typed). */
  lemma InlineRulesAgainstStepRules(isEmail: string -> bool, f: Field, v: string)
    ensures InlineIssues(isEmail, f, v).Some? <==> f in {FirstName, LastName, Email, Phone, Company, Position}
    ensures InlineIssues(isEmail, f, v).Some? && f != Phone ==>
              (InlineIssues(isEmail, f, v).value == [] <==> FieldAccepted(isEmail, f, v))
    ensures f == Phone ==>
              (InlineIssues(isEmail, f, v).value == [] <==> 8 <= |Trim(v)| && PhonePattern(Trim(v)))
    ensures f == Phone && |Trim(v)| > 20 ==> !FieldAccepted(isEmail, f, v)
  {
  }

  /** The error map after `validateField(name, value)`: unchanged for a field
      without an inline rule, the entry deleted when the value passes, and
      set to the first issue when it fails. */
  function ValidatedErrors(isEmail: string -> bool, errors: map<Field, Check>, name: Field, value: string): map<Field, Check> {
    match InlineIssues(isEmail, name, value)
    case None => errors
    case Some(issues) => if issues == [] then errors - {name} else errors[name := issues[0].check]
  }

  /** `validateField` touches at most the entry of `name`: a field without a
      rule leaves the map as it is, a pass removes the entry, a failure
      installs one. */
  lemma ValidatedErrorsOnlyTouchName(isEmail: string -> bool, errors: map<Field, Check>, name: Field, value: string)
    ensures var e := ValidatedErrors(isEmail, errors, name, value);
            && (forall g :: g != name ==> (g in e <==> g in errors))
            && (forall g :: g != name && g in errors ==> e[g] == errors[g])
            && (InlineIssues(isEmail, name, value).None? ==> e == errors)
            && (InlineIssues(isEmail, name, value) == Some([]) ==> name !in e)
            && (InlineIssues(isEmail, name, value).Some? && InlineIssues(isEmail, name, value) != Some([]) ==> name in e)
  {
  }

  /** The six text inputs, whose messages wait until the field is touched. */
  const TextInputs: set<Field> := {FirstName, LastName, Email, Phone, Company, Position}

  /** The training select and the date input of step 3, whose messages do not
      wait for `touched`. */
  const ImmediateFields: set<Field> := {PreferredTraining, StartDate}

  /** The field's control is on screen: each step renders only its own fields. */
  predicate OnScreen(step: int, f: Field) {
    1 <= step <= 3 && f in StepFields(step)
  }

  /** The error message of field `f` is rendered at step `step`: only for a
      field of that step; a text input once it is also touched, the two
      immediate fields as soon as the error is recorded, the experience level
      and the motivation never. */
  predicate ErrorDisplayed(step: int, errors: map<Field, Check>, touched: set<Field>, f: Field) {
    OnScreen(step, f) &&
    match f
    case PreferredTraining => f in errors
    case StartDate => f in errors
    case Motivation => false
    case ExperienceLevel => false
    case _ => f in errors && f in touched
  }

  /** Right after `validateStep` fails, the messages on screen are exactly
      those of the failing fields of the step that can show one: the
      touched text inputs and the two immediate fields. An untouched text
      input shows nothing although its error is recorded, and a motivation
      over 2000 characters (which `maxLength`, not modelled, stops from being
      typed) is refused without any message. */
  lemma StepMessagesShown(isEmail: string -> bool, step: int, data: map<Field, string>, touched: set<Field>, f: Field)
    requires 1 <= step <= 3
    requires AllFields <= data.Keys
    ensures ErrorDisplayed(step, LastMessages(StepIssues(isEmail, step, data)), touched, f)
        <==> f in StepFields(step) && !FieldAccepted(isEmail, f, data[f])
             && (f in ImmediateFields || (f in TextInputs && f in touched))
  {
    var issues := StepIssues(isEmail, step, data);
    LastMessagesKeys(issues);
    StepIssuesReportFailingFields(isEmail, step, data);
    assert f in LastMessages(issues) <==> f in StepFields(step) && !FieldAccepted(isEmail, f, data[f]);
  }

  /** Leaving a text input of the current step (`handleBlur`) shows its
      message exactly when the inline rule reports an issue for its value. */
  lemma BlurShowsInlineVerdict(isEmail: string -> bool, step: int, errors: map<Field, Check>, touched: set<Field>,
                               f: Field, v: string)
    requires OnScreen(step, f) && f in TextInputs
    ensures ErrorDisplayed(step, ValidatedErrors(isEmail, errors, f, v), touched + {f}, f)
        <==> InlineIssues(isEmail, f, v) != Some([])
  {
  }

  const BaseInputClass := "transition-all duration-300"
  const ErrorInputClass := BaseInputClass + " border-destructive focus:ring-destructive"
  const NormalInputClass := BaseInputClass + " focus:ring-accent"

  /** The form state of the `Register` component. */
  class RegistrationForm {
    /** The abstract e-mail check of zod's `.email()`. */
    const isEmail: string -> bool
    var currentStep: int
    var isSubmitting: bool
    var errors: map<Field, Check>
    var touched: set<Field>
    var formData: map<Field, string>

    /** The step is one of the three, and every field has a value. */
    ghost predicate Valid()
      reads this
    {
      1 <= currentStep <= 3 && formData.Keys == AllFields
    }

    /** The initial state: step 1, nothing touched, no errors, every field empty. */
    constructor (isEmail: string -> bool)
      ensures Valid() && this.isEmail == isEmail
      ensures currentStep == 1 && !isSubmitting && errors == map[] && touched == {}
      ensures formData == map f | f in AllFields :: ""
    {
      this.isEmail := isEmail;
      currentStep := 1;
      isSubmitting := false;
      errors := map[];
      touched := {};
      formData := map f | f in AllFields :: "";
    }

    /** `validateStep(step)`: false for a step outside 1..3 with the errors
        left as they are; otherwise the step passes exactly when its schema
        reports no issue, and the errors become the last message of each
        failing field (the empty map on success). */
    method ValidateStep(step: int) returns (ok: bool)
      requires Valid()
      modifies this`errors
      ensures ok <==> 1 <= step <= 3 && StepIssues(isEmail, step, formData) == []
      ensures !(1 <= step <= 3) ==> errors == old(errors)
      ensures 1 <= step <= 3 ==> errors == LastMessages(StepIssues(isEmail, step, formData))
    {
      if !(1 <= step <= 3) {
        return false;
      }
      var issues := StepIssues(isEmail, step, formData);
      if issues != [] {
        var newErrors := CollectErrors(issues);
        errors := newErrors;
        return false;
      }
      errors := map[];
      ok := true;
    }

    /** `validateField(name, value)`. */
    method ValidateField(name: Field, value: string)
      modifies this`errors
      ensures errors == ValidatedErrors(isEmail, old(errors), name, value)
    {
      var issues := InlineIssues(isEmail, name, value);
      if issues.None? {
        return;
      }
      if issues.value != [] {
        errors := errors[name := issues.value[0].check];
      } else {
        errors := errors - {name};
      }
    }

    /** `handleChange(name, value)`: stores the value and re-validates the
        field only when it has been touched. */
    method HandleChange(name: Field, value: string)
      requires Valid()
      modifies this`formData, this`errors
      ensures Valid()
      ensures formData == old(formData)[name := value]
      ensures name in touched ==> errors == ValidatedErrors(isEmail, old(errors), name, value)
      ensures name !in touched ==> errors == old(errors)
    {
      formData := formData[name := value];
      assert formData.Keys == old(formData).Keys + {name};
      if name in touched {
        ValidateField(name, value);
      }
    }

    /** `handleBlur(name)`: marks the field touched and validates its current value. */
    method HandleBlur(name: Field)
      requires Valid()
      modifies this`touched, this`errors
      ensures Valid()
      ensures touched == old(touched) + {name}
      ensures errors == ValidatedErrors(isEmail, old(errors), name, formData[name])
    {
      touched := touched + {name};
      ValidateField(name, formData[name]);
    }

    /** `nextStep()`: validates the current step; when it passes below step
        3, moves one step forward and forgets what was touched. */
    method NextStep()
      requires Valid()
      modifies this`currentStep, this`touched, this`errors
      ensures Valid()
      ensures errors == LastMessages(StepIssues(isEmail, old(currentStep), formData))
      ensures var advance := StepIssues(isEmail, old(currentStep), formData) == [] && old(currentStep) < 3;
              && currentStep == (if advance then old(currentStep) + 1 else old(currentStep))
              && touched == (if advance then {} else old(touched))
    {
      var ok := ValidateStep(currentStep);
      if ok && currentStep < 3 {
        currentStep := currentStep + 1;
        touched := {};
      }
    }

    /** `prevStep()`: above step 1, moves one step back and clears both the
        errors and the touched set; at step 1 nothing changes. */
    method PrevStep()
      requires Valid()
      modifies this`currentStep, this`touched, this`errors
      ensures Valid()
      ensures old(currentStep) > 1 ==> currentStep == old(currentStep) - 1 && errors == map[] && touched == {}
      ensures old(currentStep) == 1 ==> currentStep == 1 && errors == old(errors) && touched == old(touched)
    {
      if currentStep > 1 {
        currentStep := currentStep - 1;
        errors := map[];
        touched := {};
      }
    }

    /** `handleSubmit`: validates step 3 (whatever the current step) and
        starts submitting only when it passes. */
    method HandleSubmit()
      requires Valid()
      modifies this`errors, this`isSubmitting
      ensures Valid()
      ensures errors == LastMessages(StepIssues(isEmail, 3, formData))
      ensures isSubmitting == (StepIssues(isEmail, 3, formData) == [] || old(isSubmitting))
    {
      var ok := ValidateStep(3);
      if !ok {
        return;
      }
      isSubmitting := true;
    }

    /** The submission timer firing: the toast and the navigation to
        `/thanks` are not modelled; submitting ends. */
    method SubmissionCompleted()
      modifies this`isSubmitting
      ensures !isSubmitting
    {
      isSubmitting := false;
    }

    /** `getInputClassName(fieldName)`: the destructive border exactly when
        the field has an error and has been touched. */
    function InputClassName(f: Field): (c: string)
      reads this
      ensures c == ErrorInputClass <==> f in errors && f in touched
      ensures c == NormalInputClass <==> !(f in errors && f in touched)
    {
      if f in errors && f in touched then ErrorInputClass else NormalInputClass
    }

    /** The `className` of the training select and of the date input. */
    function ImmediateClassName(f: Field): string
      reads this
    {
      if f in errors then "border-destructive" else ""
    }

    /** Whether the message of field `f` is rendered under it. */
    predicate ShowsError(f: Field)
      reads this
    {
      ErrorDisplayed(currentStep, errors, touched, f)
    }

    /** The message and the red border of a control on screen agree: a
        message shows exactly when its control carries the destructive
        class, and the two fields without such a class never show one. */
    lemma MessageMatchesBorder(f: Field)
      ensures f in TextInputs ==> (ShowsError(f) <==> OnScreen(currentStep, f) && InputClassName(f) == ErrorInputClass)
      ensures f in ImmediateFields ==>
                (ShowsError(f) <==> OnScreen(currentStep, f) && ImmediateClassName(f) == "border-destructive")
      ensures f !in TextInputs && f !in ImmediateFields ==> !ShowsError(f)
    {
    }
  }
}
