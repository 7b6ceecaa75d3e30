/** The wizard as a transition system: the component's state, the user and
    timer events that change it, the guards the markup puts on them, and
    what each event does. The class in `FormComponent` is proved to follow
    `Apply` step by step; the lemmas here state what every run keeps. */
module Wizard {
  import opened FormRecord
  import opened Validation

  datatype Option<T> = None | Some(value: T)

  /** `step`, `formData`, `errors`, `isSubmitting`, and the browser's
      saved "formData" entry (`None` when it is absent). */
  datatype WizardState = WizardState(
    step: int,
    data: FormData,
    errors: map<Field, string>,
    submitting: bool,
    stored: Option<FormData>)

  /** One atomic change of the component's state:
      an input's change event, the Next, Back and Submit buttons, a click
      on a numbered progress button, and the end of the submission delay
      (whose success notification either returns or throws). */
  datatype Event =
    | Edit(field: Field, value: string)
    | Next
    | Back
    | Jump(target: int)
    | SubmitStart
    | SubmitDone(notifyFailed: bool)

  /** The inputs a step renders: the personal fields on step 1, the
      address fields on step 2, none on the review step. */
  function InputsOn(step: int): (fs: set<Field>)
    ensures step != 2 ==> fs <= StepFields(1)
    ensures step == 2 ==> fs * StepFields(1) == {}
  {
    if step == 1 then {Name, Email, Phone}
    else if step == 2 then {AddressLine1, AddressLine2, City, State, ZipCode}
    else {}
  }

  /** The guards the markup places on each event: inputs only on the step
      that renders them, Next only while shown, Back only off step 1, a
      progress button only up to the current step, Submit only while shown
      and no submission is in flight, the timer only after a start. */
  predicate Enabled(s: WizardState, e: Event): (b: bool)
    ensures b && e.Edit? ==> s.step == 1 || s.step == 2
    ensures b && e.SubmitStart? ==> !(s.step < 3) && !s.submitting
    ensures b && e.Next? ==> s.step < 3
    ensures b && e.Jump? ==> 1 <= e.target <= s.step
  {
    match e
    case Edit(f, _) => f in InputsOn(s.step)
    case Next => s.step < 3
    case Back => s.step != 1
    case Jump(n) => n in {1, 2, 3} && n <= s.step
    case SubmitStart => !(s.step < 3) && !s.submitting
    case SubmitDone(_) => s.submitting
  }

  /** The state a fresh component reaches after its first render: step 1,
      the saved record (or the empty one), and the record written back to
      storage by the persistence effect. */
  function Init(saved: Option<FormData>): WizardState {
    var d := if saved.Some? then saved.value else Empty();
    WizardState(1, d, map[], false, Some(d))
  }

  /** What one event does. `numeric` stands for `!isNaN(Number(_))`. */
  function Apply(s: WizardState, e: Event, numeric: string -> bool): (r: WizardState)
    ensures r.data != s.data ==> e.Edit? || e.SubmitDone?
    ensures r.errors != s.errors ==> e.Next? || e.SubmitStart?
    ensures r.submitting != s.submitting ==> e.SubmitStart? || e.SubmitDone?
    ensures r.step != s.step ==> !e.Edit? && !e.SubmitStart?
  {
    match e
    case Edit(f, v) =>
      var d := s.data.With(f, v);
      s.(data := d, stored := Some(d))
    case Next =>
      var errs := Validate(s.step, s.data, numeric);
      s.(errors := errs, step := if errs == map[] then s.step + 1 else s.step)
    case Back =>
      s.(step := s.step - 1)
    case Jump(n) =>
      s.(step := n)
    case SubmitStart =>
      var errs := Validate(3, s.data, numeric);
      s.(errors := errs, submitting := if errs == map[] then true else s.submitting)
    case SubmitDone(notifyFailed) =>
      if notifyFailed then s.(submitting := false)
      else
        // the entry is removed, then the effect on `formData` stores the new record
        s.(data := Empty(), step := 1, stored := Some(Empty()), submitting := false)
  }

  /** What holds in every state a run reaches: the step is 1, 2 or 3, every
      step before the current one is complete, and storage mirrors the record. */
  predicate Invariant(s: WizardState, numeric: string -> bool) {
    && 1 <= s.step <= 3
    && (s.step >= 2 ==> StepComplete(1, s.data, numeric))
    && (s.step == 3 ==> StepComplete(2, s.data, numeric))
    && s.stored == Some(s.data)
  }

  // ----- Single transitions -----

  /** A fresh component satisfies the invariant. */
  lemma InitEstablishes(saved: Option<FormData>, numeric: string -> bool)
    ensures Invariant(Init(saved), numeric)
  {
  }

  /** Every enabled event keeps the invariant. */
  lemma ApplyPreserves(s: WizardState, e: Event, numeric: string -> bool)
    requires Invariant(s, numeric) && Enabled(s, e)
    ensures Invariant(Apply(s, e, numeric), numeric)
  {
    match e
    case Edit(f, v) =>
      var d := s.data.With(f, v);
      if s.step >= 2 {
        assert f !in StepFields(1);
        ValidateFrame(1, s.data, d, numeric);
      }
    case Next =>
    case Back =>
    case Jump(n) =>
    case SubmitStart =>
    case SubmitDone(_) =>
  }

  /** Next advances by exactly one when the current step is complete, and
      otherwise leaves the step alone; either way it stores that step's
      errors and keeps the record. */
  lemma NextIsGated(s: WizardState, numeric: string -> bool)
    ensures var r := Apply(s, Next, numeric);
      && r.errors == Validate(s.step, s.data, numeric)
      && (StepComplete(s.step, s.data, numeric) ==> r.step == s.step + 1)
      && (!StepComplete(s.step, s.data, numeric) ==> r.step == s.step)
      && r.data == s.data && r.submitting == s.submitting && r.stored == s.stored
  {
  }

  /** From any step of 1 or more, the step only moves forward on Next, by
      one, past a complete step. */
  lemma ForwardOnlyThroughValidation(s: WizardState, e: Event, numeric: string -> bool)
    requires 1 <= s.step && Enabled(s, e)
    requires Apply(s, e, numeric).step > s.step
    ensures e == Next
    ensures StepComplete(s.step, s.data, numeric)
    ensures Apply(s, e, numeric).step == s.step + 1
  {
  }

  /** A change event rewrites exactly one field, and storage follows. */
  lemma EditIsSingleField(s: WizardState, f: Field, v: string, numeric: string -> bool)
    ensures var r := Apply(s, Edit(f, v), numeric);
      && r.data.Get(f) == v
      && (forall g :: g != f ==> r.data.Get(g) == s.data.Get(g))
      && r.stored == Some(r.data)
      && r.step == s.step && r.errors == s.errors && r.submitting == s.submitting
  {
  }

  /** Submitting from the review step always starts (step 3 checks nothing)
      and clears the errors; it cannot start while one is in flight. */
  lemma SubmitStartAlwaysStarts(s: WizardState, numeric: string -> bool)
    ensures s.submitting ==> !Enabled(s, SubmitStart)
    ensures var r := Apply(s, SubmitStart, numeric);
      && r.submitting && r.errors == map[]
      && r.step == s.step && r.data == s.data && r.stored == s.stored
  {
    OtherStepsPass(3, s.data, numeric);
  }

  /** However the success notification behaves, the submission ends; when it
      returns, the record is emptied, the wizard is back on step 1 and the
      storage holds the empty record. */
  lemma CompletionResets(s: WizardState, notifyFailed: bool, numeric: string -> bool)
    ensures var r := Apply(s, SubmitDone(notifyFailed), numeric);
      && !r.submitting
      && (!notifyFailed ==> r.data == Empty() && r.step == 1 && r.stored == Some(Empty()))
      && (notifyFailed ==> r == s.(submitting := false))
  {
  }

  /** A completed submission puts the wizard in the state of a fresh
      component with nothing saved, apart from the displayed errors. */
  lemma CompletionIsFreshStart(s: WizardState, numeric: string -> bool)
    ensures Apply(s, SubmitDone(false), numeric) == Init(None).(errors := s.errors)
  {
  }

  /** Reloading from what the storage holds restores the same record. */
  lemma ReloadRestoresRecord(s: WizardState, numeric: string -> bool)
    requires Invariant(s, numeric)
    ensures Init(s.stored).data == s.data
  {
  }

  // ----- Runs -----

  /** Every event of `es` is enabled in the state it is applied to. */
  predicate Admissible(s: WizardState, es: seq<Event>, numeric: string -> bool)
    decreases |es|
  {
    es == [] || (Enabled(s, es[0]) && Admissible(Apply(s, es[0], numeric), es[1..], numeric))
  }

  /** The state reached after the events `es`. */
  function Run(s: WizardState, es: seq<Event>, numeric: string -> bool): WizardState
    decreases |es|
  {
    if es == [] then s else Run(Apply(s, es[0], numeric), es[1..], numeric)
  }

  /** An admissible run keeps the invariant. */
  lemma {:induction false} RunPreserves(s: WizardState, es: seq<Event>, numeric: string -> bool)
    requires Invariant(s, numeric) && Admissible(s, es, numeric)
    ensures Invariant(Run(s, es, numeric), numeric)
    decreases |es|
  {
    if es != [] {
      ApplyPreserves(s, es[0], numeric);
      RunPreserves(Apply(s, es[0], numeric), es[1..], numeric);
    }
  }

  /** In every state a user can reach, the step is 1, 2 or 3 and the storage
      mirrors the record; and once the Submit button is enabled, every field
      the first two steps check has passed its check. */
  lemma ReachableStates(saved: Option<FormData>, es: seq<Event>, numeric: string -> bool)
    requires Admissible(Init(saved), es, numeric)
    ensures var s := Run(Init(saved), es, numeric);
      && 1 <= s.step <= 3
      && s.stored == Some(s.data)
      && (Enabled(s, SubmitStart) ==> StepComplete(1, s.data, numeric) && StepComplete(2, s.data, numeric))
  {
    InitEstablishes(saved, numeric);
    RunPreserves(Init(saved), es, numeric);
  }

  /** In any run that starts a submission, the record at that moment passes
      every check of steps 1 and 2, although `handleSubmit` itself only
      checks step 3. */
  lemma SubmittedRecordIsComplete(saved: Option<FormData>, xs: seq<Event>, ys: seq<Event>, numeric: string -> bool)
    requires Admissible(Init(saved), xs + [SubmitStart] + ys, numeric)
    ensures var s := Run(Init(saved), xs, numeric);
      StepComplete(1, s.data, numeric) && StepComplete(2, s.data, numeric)
  {
    assert xs + [SubmitStart] + ys == xs + ([SubmitStart] + ys);
    RunAppend(Init(saved), xs, [SubmitStart] + ys, numeric);
    assert ([SubmitStart] + ys)[0] == SubmitStart;
    ReachableStates(saved, xs, numeric);
  }

  /** Runs compose: the events of `xs + ys` take the wizard where `ys` takes
      the state `xs` reaches. */
  lemma {:induction false} RunAppend(s: WizardState, xs: seq<Event>, ys: seq<Event>, numeric: string -> bool)
    ensures Run(s, xs + ys, numeric) == Run(Run(s, xs, numeric), ys, numeric)
    ensures Admissible(s, xs + ys, numeric) <==>
      Admissible(s, xs, numeric) && Admissible(Run(s, xs, numeric), ys, numeric)
    decreases |xs|
  {
    if xs != [] {
      assert (xs + ys)[0] == xs[0];
      assert (xs + ys)[1..] == xs[1..] + ys;
      RunAppend(Apply(s, xs[0], numeric), xs[1..], ys, numeric);
    } else {
      assert xs + ys == ys;
    }
  }

  /** On a step whose fields are incomplete, a second press of Next right
      after a rejected one changes nothing further: rejection is repeatable. */
  lemma RejectedNextIsStable(s: WizardState, numeric: string -> bool)
    requires !StepComplete(s.step, s.data, numeric)
    ensures Run(s, [Next, Next], numeric) == Apply(s, Next, numeric)
  {
    var r := Apply(s, Next, numeric);
    assert r.step == s.step && r.data == s.data;
    assert Apply(r, Next, numeric) == r;
    assert [Next, Next][1..] == [Next];
    assert [Next][1..] == [];
  }
}
