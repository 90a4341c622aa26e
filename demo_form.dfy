/**
 * The demo mobile form: five controlled fields, a `touched` map that gates
 * the inline error messages, and a `submitted` flag that (together with the
 * validation result) disables the submit button.
 */
module DemoMobileForm {
  import opened Wrappers

  datatype Field = Name | Feedback | Level | Agree | Gender

  /** The five values the form forwards to its `onSubmit` callback. */
  datatype FormData = FormData(name: string, feedback: string, level: string, agree: bool, gender: string)

  /** The optional `initial` prop: a partial form, any field may be absent. */
  datatype InitialData = InitialData(
    name: Option<string>, feedback: Option<string>, level: Option<string>,
    agree: Option<bool>, gender: Option<string>)

  /** Option values the level `<select>` offers; "" is its placeholder option. */
  const LevelChoices: seq<string> := ["", "beginner", "intermediate", "advanced"]
  /** Values the gender radio buttons offer. */
  const GenderChoices: seq<string> := ["male", "female", "other"]

  const MinFeedbackLength := 5

  const NameRequired := "Name is required"
  const FeedbackTooShort := "Feedback must be at least 5 characters"
  const LevelRequired := "Select your level"
  const AgreeRequired := "You must agree to continue"
  const GenderRequired := "Select a gender"

  /** The initial values: `initial?.x || default`, with "" and false as defaults. */
  function InitialValues(initial: Option<InitialData>): (d: FormData)
    ensures initial.None? ==> d == FormData("", "", "", false, "")
    ensures initial.Some? ==> d.name == initial.value.name.GetOr("")
    ensures initial.Some? ==> d.feedback == initial.value.feedback.GetOr("")
    ensures initial.Some? ==> d.level == initial.value.level.GetOr("")
    ensures initial.Some? ==> d.agree == initial.value.agree.GetOr(false)
    ensures initial.Some? ==> d.gender == initial.value.gender.GetOr("")
  {
    match initial
    case None => FormData("", "", "", false, "")
    case Some(i) =>
      FormData(i.name.GetOr(""), i.feedback.GetOr(""), i.level.GetOr(""), i.agree.GetOr(false), i.gender.GetOr(""))
  }

  /** The `errors` record: the message for one field, or `undefined`. */
  function ErrorOf(d: FormData, f: Field): (e: Option<string>)
    ensures e.Some? ==> e.value != ""
  {
    match f
    case Name => if d.name == "" then Some(NameRequired) else None
    case Feedback => if |d.feedback| < MinFeedbackLength then Some(FeedbackTooShort) else None
    case Level => if d.level == "" then Some(LevelRequired) else None
    case Agree => if !d.agree then Some(AgreeRequired) else None
    case Gender => if d.gender == "" then Some(GenderRequired) else None
  }

  /** `Object.values(errors)`, in the record's key order. */
  function ErrorValues(d: FormData): seq<Option<string>>
  {
    [ErrorOf(d, Name), ErrorOf(d, Feedback), ErrorOf(d, Level), ErrorOf(d, Agree), ErrorOf(d, Gender)]
  }

  /** JavaScript truthiness of a string-or-undefined. */
  predicate Truthy(e: Option<string>)
  {
    e.Some? && e.value != ""
  }

  /** `values.some(Boolean)`. */
  predicate SomeTruthy(es: seq<Option<string>>)
  {
    if es == [] then false else Truthy(es[0]) || SomeTruthy(es[1..])
  }

  /** `hasError`. */
  predicate HasError(d: FormData)
  {
    SomeTruthy(ErrorValues(d))
  }

  lemma {:induction false} SomeTruthyIff(es: seq<Option<string>>)
    ensures SomeTruthy(es) <==> exists i :: 0 <= i < |es| && Truthy(es[i])
  {
    if es != [] {
      SomeTruthyIff(es[1..]);
      if SomeTruthy(es[1..]) {
        var i :| 0 <= i < |es[1..]| && Truthy(es[1..][i]);
        assert Truthy(es[i + 1]);
      }
      if exists i :: 0 <= i < |es| && Truthy(es[i]) {
        var i :| 0 <= i < |es| && Truthy(es[i]);
        if i > 0 {
          assert Truthy(es[1..][i - 1]);
        }
      }
    }
  }

  /** `hasError` holds exactly when some field has an error message. */
  lemma HasErrorIffSomeField(d: FormData)
    ensures HasError(d) <==> exists f :: ErrorOf(d, f).Some?
  {
    var es := ErrorValues(d);
    SomeTruthyIff(es);
    if exists f :: ErrorOf(d, f).Some? {
      var f :| ErrorOf(d, f).Some?;
      var i := match f case Name => 0 case Feedback => 1 case Level => 2 case Agree => 3 case Gender => 4;
      assert Truthy(es[i]);
    }
  }

  /**
   * The validation rules as the code states them: a non-empty name, feedback of
   * at least five characters with no upper bound, any non-empty level and gender
   * (not only the offered options), and the agreement ticked.
   */
  lemma ValidIff(d: FormData)
    ensures !HasError(d) <==>
      d.name != "" && |d.feedback| >= MinFeedbackLength && d.level != "" && d.agree && d.gender != ""
  {
    HasErrorIffSomeField(d);
    if d.name == "" { assert ErrorOf(d, Name).Some?; }
    if |d.feedback| < MinFeedbackLength { assert ErrorOf(d, Feedback).Some?; }
    if d.level == "" { assert ErrorOf(d, Level).Some?; }
    if !d.agree { assert ErrorOf(d, Agree).Some?; }
    if d.gender == "" { assert ErrorOf(d, Gender).Some?; }
  }

  /** Values outside the offered options and an over-long feedback all pass validation. */
  lemma UnofferedValuesAccepted()
    ensures var d := FormData("Ana", seq(501, _ => 'x'), "expert", true, "robot");
      !HasError(d) && d.level !in LevelChoices && d.gender !in GenderChoices && |d.feedback| > 500
  {
    var d := FormData("Ana", seq(501, _ => 'x'), "expert", true, "robot");
    ValidIff(d);
  }

  /** The component's local state. */
  datatype FormState = FormState(data: FormData, touched: map<Field, bool>, submitted: bool)

  /** `touched.f`: an absent key reads as `undefined`, which is falsy. */
  predicate IsTouched(t: map<Field, bool>, f: Field)
  {
    f in t && t[f]
  }

  function InitialState(initial: Option<InitialData>): (s: FormState)
    ensures !s.submitted && forall f :: !IsTouched(s.touched, f)
  {
    FormState(InitialValues(initial), map[], false)
  }

  /** `errors.f && touched.f`: whether a field's inline message is rendered. */
  predicate ErrorVisible(s: FormState, f: Field)
  {
    Truthy(ErrorOf(s.data, f)) && IsTouched(s.touched, f)
  }

  /** `disabled={hasError && submitted}` on the submit button. */
  predicate SubmitDisabled(s: FormState)
  {
    HasError(s.data) && s.submitted
  }

  datatype Event =
    | NameChanged(name: string)
    | FeedbackChanged(feedback: string)
    | LevelChanged(level: string)
    | GenderPicked(gender: string)
    | AgreeChanged(checked: bool)
    | Blurred(field: Field)
    | Submitted

  /** Which events the rendered controls can produce. */
  predicate Enabled(e: Event)
  {
    match e
    case LevelChanged(v) => v in LevelChoices
    case GenderPicked(g) => g in GenderChoices
    case _ => true
  }

  /** A step: the next state and what, if anything, was passed to `onSubmit`. */
  datatype Transition = Transition(next: FormState, sent: Option<FormData>)

  function Step(s: FormState, e: Event): Transition
  {
    match e
    case NameChanged(v) => Transition(s.(data := s.data.(name := v)), None)
    case FeedbackChanged(v) => Transition(s.(data := s.data.(feedback := v)), None)
    case LevelChanged(v) => Transition(s.(data := s.data.(level := v)), None)
    case GenderPicked(g) => Transition(s.(data := s.data.(gender := g)), None)
    case AgreeChanged(b) => Transition(s.(data := s.data.(agree := b)), None)
    case Blurred(f) => Transition(s.(touched := s.touched[f := true]), None)
    case Submitted =>
      Transition(s.(touched := AllTouched, submitted := true), if HasError(s.data) then None else Some(s.data))
  }

  /** The `touched` map `handleSubmit` installs: every field set. */
  const AllTouched: map<Field, bool> := map[Name := true, Feedback := true, Level := true, Agree := true, Gender := true]

  lemma AllFieldsTouched()
    ensures forall f :: IsTouched(AllTouched, f)
  {
    forall f ensures IsTouched(AllTouched, f) {
      match f
      case Name =>
      case Feedback =>
      case Level =>
      case Agree =>
      case Gender =>
    }
  }

  /** Submitting marks every field touched and the form submitted, valid or not. */
  lemma SubmitTouchesAll(s: FormState)
    ensures var n := Step(s, Submitted).next;
      n.submitted && n.data == s.data && forall f :: IsTouched(n.touched, f)
  {
    AllFieldsTouched();
  }

  /**
   * `onSubmit` is called exactly when the form is valid, and with the current
   * values unchanged.
   */
  lemma SubmitForwardsOnlyValid(s: FormState)
    ensures var sent := Step(s, Submitted).sent;
      (sent.Some? <==>
        s.data.name != "" && |s.data.feedback| >= MinFeedbackLength &&
        s.data.level != "" && s.data.agree && s.data.gender != "")
      && (sent.Some? ==> sent.value == s.data)
  {
    ValidIff(s.data);
  }

  /** After a submit attempt every error message is on screen. */
  lemma SubmitShowsAllErrors(s: FormState, f: Field)
    ensures ErrorVisible(Step(s, Submitted).next, f) <==> ErrorOf(s.data, f).Some?
  {
  }

  /** Blurring a field sets only that field's touched flag. */
  lemma BlurTouchesOnly(s: FormState, f: Field, g: Field)
    ensures var n := Step(s, Blurred(f)).next;
      n.data == s.data && n.submitted == s.submitted &&
      (IsTouched(n.touched, g) <==> g == f || IsTouched(s.touched, g))
  {
  }

  /** Whether each event of a list is enabled in the state it reaches. */
  predicate Allowed(s: FormState, es: seq<Event>)
    decreases |es|
  {
    es == [] || (Enabled(es[0]) && Allowed(Step(s, es[0]).next, es[1..]))
  }

  /** The state after a list of events, and every value passed to `onSubmit`. */
  function Run(s: FormState, es: seq<Event>): (r: (FormState, seq<FormData>))
    decreases |es|
  {
    if es == [] then (s, [])
    else
      var t := Step(s, es[0]);
      var rest := Run(t.next, es[1..]);
      (rest.0, (if t.sent.Some? then [t.sent.value] else []) + rest.1)
  }

  /** Every value that reaches `onSubmit` passes all five rules. */
  lemma {:induction false} RunSendsOnlyValid(s: FormState, es: seq<Event>)
    ensures forall d :: d in Run(s, es).1 ==> !HasError(d)
    decreases |es|
  {
    if es != [] {
      RunSendsOnlyValid(Step(s, es[0]).next, es[1..]);
    }
  }

  /** The form counts as submitted once a submit attempt has happened, and then forever. */
  lemma {:induction false} RunSubmitted(s: FormState, es: seq<Event>)
    ensures Run(s, es).0.submitted <==> s.submitted || Submitted in es
    decreases |es|
  {
    if es != [] {
      RunSubmitted(Step(s, es[0]).next, es[1..]);
      assert Submitted in es <==> es[0] == Submitted || Submitted in es[1..] by {
        assert es == [es[0]] + es[1..];
      }
    }
  }

  /**
   * The button is disabled only after a failed attempt: from a fresh form it is
   * disabled iff the form has an error and a submit has already been tried, so
   * an invalid form can be submitted once.
   */
  lemma ButtonDisabledIff(initial: Option<InitialData>, es: seq<Event>)
    ensures var s := Run(InitialState(initial), es).0;
      SubmitDisabled(s) <==> HasError(s.data) && Submitted in es
  {
    RunSubmitted(InitialState(initial), es);
  }

  /** A blank form has errors, yet its button starts enabled. */
  lemma BlankFormSubmittable()
    ensures var s := InitialState(None); HasError(s.data) && !SubmitDisabled(s)
  {
  }

  /** Submitting while the button is disabled would change nothing and send nothing. */
  lemma DisabledSubmitIsNoOp(s: FormState)
    requires SubmitDisabled(s)
    requires s.submitted ==> s.touched == AllTouched
    ensures Step(s, Submitted) == Transition(s, None)
  {
  }

  /** Once the form is submitted, `touched` stays the full map: a blur only re-sets a flag. */
  lemma {:induction false} RunKeepsAllTouched(s: FormState, es: seq<Event>)
    requires s.submitted ==> s.touched == AllTouched
    ensures var n := Run(s, es).0; n.submitted ==> n.touched == AllTouched
    decreases |es|
  {
    if es != [] {
      if es[0].Blurred? && s.submitted {
        AllFieldsTouched();
        assert IsTouched(AllTouched, es[0].field);
        assert AllTouched[es[0].field := true] == AllTouched;
      }
      RunKeepsAllTouched(Step(s, es[0]).next, es[1..]);
    }
  }

  /**
   * The form does not guard `handleSubmit` itself, but in every state reached
   * from mount, a submit while the button is disabled changes nothing and
   * calls nothing.
   */
  lemma ReachableDisabledSubmitIsNoOp(initial: Option<InitialData>, es: seq<Event>)
    ensures var s := Run(InitialState(initial), es).0;
      SubmitDisabled(s) ==> Step(s, Submitted) == Transition(s, None)
  {
    RunKeepsAllTouched(InitialState(initial), es);
    var s := Run(InitialState(initial), es).0;
    if SubmitDisabled(s) {
      DisabledSubmitIsNoOp(s);
    }
  }

  /** Level and gender values the controls can leave in the form. */
  predicate OfferedChoices(d: FormData)
  {
    d.level in LevelChoices && (d.gender == "" || d.gender in GenderChoices)
  }

  /**
   * Through the controls alone the level stays an offered option (or the
   * placeholder) and the gender a radio value (or unset): the looser
   * validation is reachable only through values supplied by `initial`.
   */
  lemma {:induction false} ControlsKeepOfferedChoices(s: FormState, es: seq<Event>)
    requires OfferedChoices(s.data) && Allowed(s, es)
    ensures OfferedChoices(Run(s, es).0.data)
    decreases |es|
  {
    if es != [] {
      ControlsKeepOfferedChoices(Step(s, es[0]).next, es[1..]);
    }
  }

  /** The component: its `useState` fields, updated by its event handlers. */
  class Form {
    var name: string
    var feedback: string
    var level: string
    var agree: bool
    var gender: string
    var touched: map<Field, bool>
    var submitted: bool

    function State(): FormState
      reads this
    {
      FormState(FormData(name, feedback, level, agree, gender), touched, submitted)
    }

    constructor (initial: Option<InitialData>)
      ensures State() == InitialState(initial)
    {
      var d := InitialValues(initial);
      name, feedback, level, agree, gender := d.name, d.feedback, d.level, d.agree, d.gender;
      touched := map[];
      submitted := false;
    }

    /** `onChange` of the name input. */
    method ChangeName(v: string)
      modifies this
      ensures State() == Step(old(State()), NameChanged(v)).next
      ensures name == v && touched == old(touched) && submitted == old(submitted)
    {
      name := v;
    }

    /** `onChange` of the feedback textarea. */
    method ChangeFeedback(v: string)
      modifies this
      ensures State() == Step(old(State()), FeedbackChanged(v)).next
      ensures feedback == v && touched == old(touched) && submitted == old(submitted)
    {
      feedback := v;
    }

    /** `onChange` of the level select. */
    method ChangeLevel(v: string)
      requires v in LevelChoices
      modifies this
      ensures State() == Step(old(State()), LevelChanged(v)).next
      ensures level == v && touched == old(touched) && submitted == old(submitted)
    {
      level := v;
    }

    /** `onChange` of one gender radio button. */
    method PickGender(g: string)
      requires g in GenderChoices
      modifies this
      ensures State() == Step(old(State()), GenderPicked(g)).next
      ensures gender == g && touched == old(touched) && submitted == old(submitted)
    {
      gender := g;
    }

    /** `onChange` of the agreement checkbox. */
    method ChangeAgree(checked: bool)
      modifies this
      ensures State() == Step(old(State()), AgreeChanged(checked)).next
      ensures agree == checked && touched == old(touched) && submitted == old(submitted)
    {
      agree := checked;
    }

    /** `onBlur` of any field. */
    method Blur(f: Field)
      modifies this
      ensures State() == Step(old(State()), Blurred(f)).next
      ensures touched == old(touched)[f := true]
    {
      touched := touched[f := true];
    }

    /** `handleSubmit`: returns what is passed to `onSubmit`, if it is called. */
    method HandleSubmit() returns (sent: Option<FormData>)
      modifies this
      ensures Transition(State(), sent) == Step(old(State()), Submitted)
      ensures submitted && forall f :: IsTouched(touched, f)
      ensures sent.Some? <==> !HasError(old(State()).data)
    {
      var hasError := HasError(State().data);
      touched := AllTouched;
      submitted := true;
      AllFieldsTouched();
      if !hasError {
        sent := Some(FormData(name, feedback, level, agree, gender));
      } else {
        sent := None;
      }
    }
  }
}
