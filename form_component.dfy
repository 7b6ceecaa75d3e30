/** The form component's state fields and its handlers. Each handler is one
    atomic update of the fields and is proved to perform the transition
    `Wizard.Apply` gives for its event, so every lemma about runs of the
    transition system holds of the component. */
module FormComponent {
  import opened FormRecord
  import opened Validation
  import opened Wizard

  class Component {
    var step: int
    var isSubmitting: bool
    var formData: FormData
    var errors: map<Field, string>
    /** The browser's "formData" storage entry. */
    ghost var stored: Option<FormData>
    /** `!isNaN(Number(_))`, which the model does not define. */
    const numeric: string -> bool

    /** The fields as a state of the transition system. */
    ghost function Snapshot(): WizardState
      reads this
    {
      WizardState(step, formData, errors, isSubmitting, stored)
    }

    ghost predicate Valid()
      reads this
    {
      Invariant(Snapshot(), numeric)
    }

    /** Mounting: the record comes from storage when an entry is saved, and
        the persistence effect then writes it back. */
    constructor (saved: Option<FormData>, numeric: string -> bool)
      ensures this.numeric == numeric
      ensures Snapshot() == Init(saved)
      ensures Valid()
    {
      this.numeric := numeric;
      step := 1;
      isSubmitting := false;
      formData := if saved.Some? then saved.value else Empty();
      errors := map[];
      stored := Some(if saved.Some? then saved.value else Empty());
    }

    /** `validateStep`: replaces the whole error map with the one the step's
        checks build and reports whether it is empty. */
    method ValidateStep(stepNumber: int) returns (ok: bool)
      modifies this`errors
      ensures errors == Validate(stepNumber, formData, numeric)
      ensures ok <==> errors == map[]
      ensures ok <==> StepComplete(stepNumber, formData, numeric)
    {
      var newErrors := Validate(stepNumber, formData, numeric);
      errors := newErrors;
      ok := |newErrors| == 0;
    }

    /** `handleChange`, for an input the current step renders. */
    method HandleChange(f: Field, v: string)
      requires Valid() && f in InputsOn(step)
      modifies this`formData, this`stored
      ensures Snapshot() == Apply(old(Snapshot()), Edit(f, v), numeric)
      ensures Valid()
    {
      ApplyPreserves(Snapshot(), Edit(f, v), numeric);
      formData := formData.With(f, v);
      stored := Some(formData);
    }

    /** `handleNext`, reachable only while the Next button is shown. */
    method HandleNext()
      requires Valid() && step < 3
      modifies this`errors, this`step
      ensures Snapshot() == Apply(old(Snapshot()), Next, numeric)
      ensures Valid()
    {
      ApplyPreserves(Snapshot(), Next, numeric);
      var ok := ValidateStep(step);
      if ok {
        step := step + 1;
      }
    }

    /** `handleBack`, reachable only while the Back button is enabled. */
    method HandleBack()
      requires Valid() && step != 1
      modifies this`step
      ensures Snapshot() == Apply(old(Snapshot()), Back, numeric)
      ensures Valid()
    {
      ApplyPreserves(Snapshot(), Back, numeric);
      step := step - 1;
    }

    /** A click on progress button `num`, enabled only up to the current step. */
    method JumpTo(num: int)
      requires Valid() && num in {1, 2, 3} && num <= step
      modifies this`step
      ensures Snapshot() == Apply(old(Snapshot()), Jump(num), numeric)
      ensures Valid()
    {
      ApplyPreserves(Snapshot(), Jump(num), numeric);
      step := num;
    }

    /** `handleSubmit` up to the start of the delay, reachable only from the
        review step while no submission is in flight. */
    method HandleSubmit() returns (started: bool)
      requires Valid() && !(step < 3) && !isSubmitting
      modifies this`errors, this`isSubmitting
      ensures Snapshot() == Apply(old(Snapshot()), SubmitStart, numeric)
      ensures started && isSubmitting
      ensures Valid()
    {
      ApplyPreserves(Snapshot(), SubmitStart, numeric);
      started := ValidateStep(3);
      if started {
        isSubmitting := true;
      }
    }

    /** The body of the delayed callback. When the success notification
        throws, only the `finally` clause runs; otherwise the record and the
        step are reset and the storage entry removed, after which the effect
        on `formData` saves the new (empty) record. */
    method FinishSubmission(notifyFailed: bool)
      requires Valid() && isSubmitting
      modifies this`formData, this`step, this`stored, this`isSubmitting
      ensures Snapshot() == Apply(old(Snapshot()), SubmitDone(notifyFailed), numeric)
      ensures !isSubmitting
      ensures !notifyFailed ==> formData == Empty() && step == 1 && stored == Some(Empty())
      ensures Valid()
    {
      ApplyPreserves(Snapshot(), SubmitDone(notifyFailed), numeric);
      if !notifyFailed {
        formData := Empty();
        step := 1;
        stored := Some(formData);
      }
      isSubmitting := false;
    }
  }
}
