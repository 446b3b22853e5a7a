/**
 * The registration wizard of the landing page: the step counter and the
 * step forms of the chosen role's panel, the step indicator, the reset, and the
 * size limits on the files chosen during registration.
 */
module Registration {
  import opened Values
  import Uploads

  /** The two classes a step indicator can carry. */
  datatype Mark = Mark(active: bool, completed: bool)

  /** What `nextStep` or `previousStep` did. */
  datatype StepOutcome =
    | Moved
    | Stayed
    | NoActiveForm   // `querySelector` found no active step form: a TypeError, nothing changes

  /** How many of the elements are step forms. */
  function StepForms(children: seq<bool>): nat
  {
    if children == [] then 0 else StepForms(children[..|children| - 1]) + (if children[|children| - 1] then 1 else 0)
  }

  lemma StepFormsSnoc(children: seq<bool>, k: nat)
    requires k < |children|
    ensures StepForms(children[..k + 1]) == StepForms(children[..k]) + (if children[k] then 1 else 0)
  {
    assert children[..k + 1][..k] == children[..k];
  }

  /** The first step form among the children, if there is one. */
  function FirstStepForm(children: seq<bool>): (r: Option<nat>)
    ensures r.Some? ==> r.value < |children| && children[r.value] && StepForms(children[..r.value]) == 0
    ensures r.None? ==> forall k :: 0 <= k < |children| ==> !children[k]
  {
    if children == [] then None
    else if children[0] then
      assert children[..0] == [];
      Some(0)
    else
      match FirstStepForm(children[1..])
      case None => None
      case Some(k) =>
        FirstStepFormShift(children, k);
        Some(k + 1)
  }

  lemma {:induction false} FirstStepFormShift(children: seq<bool>, k: nat)
    requires children != [] && !children[0] && k < |children| - 1
    ensures StepForms(children[..k + 1]) == StepForms(children[1..][..k])
    decreases k
  {
    if k == 0 {
      assert children[..1] == [children[0]];
      assert children[..1][..0] == [];
    } else {
      FirstStepFormShift(children, k - 1);
      StepFormsSnoc(children, k);
      StepFormsSnoc(children[1..], k - 1);
      assert children[1..][k - 1] == children[k];
    }
  }

  /**
   * The class one step indicator gets from `updateStepIndicator`. The middle
   * case, `index === currentStep - 1`, is tested only after `index < currentStep`
   * has failed, so it never applies.
   */
  function IndicatorMark(index: int, currentStep: int): (r: Mark)
    ensures !r.active
    ensures r.completed <==> index < currentStep
  {
    if index < currentStep then Mark(false, true)
    else if index == currentStep - 1 then Mark(true, false)
    else Mark(false, false)
  }

  /**
   * The indicator the three branches evidently aim at: the steps before the
   * current one completed, the current one active, the later ones plain.
   */
  function IntendedIndicatorMark(index: int, currentStep: int): (r: Mark)
    ensures r.active <==> index == currentStep - 1
    ensures r.completed <==> index < currentStep - 1
    ensures !(r.active && r.completed)
  {
    if index < currentStep - 1 then Mark(false, true)
    else if index == currentStep - 1 then Mark(true, false)
    else Mark(false, false)
  }

  /**
   * The two marks differ on the current step alone: the page shows it completed
   * where it is evidently meant to show it active.
   */
  lemma CurrentStepShownCompleted(index: int, currentStep: int)
    ensures index != currentStep - 1 ==> IndicatorMark(index, currentStep) == IntendedIndicatorMark(index, currentStep)
    ensures index == currentStep - 1 ==>
      IndicatorMark(index, currentStep) == Mark(false, true) && IntendedIndicatorMark(index, currentStep) == Mark(true, false)
  {
  }

  /** With the intended marks, exactly one indicator of a panel is active while the step is within the panel. */
  lemma IntendedMarksOneActive(stepCount: nat, currentStep: int, i: int, j: int)
    requires 1 <= currentStep <= stepCount
    ensures IntendedIndicatorMark(currentStep - 1, currentStep).active
    ensures 0 <= i < j < stepCount ==> !(IntendedIndicatorMark(i, currentStep).active && IntendedIndicatorMark(j, currentStep).active)
  {
  }

  /**
   * The page's registration globals together with the current role's panel:
   * `forms` says which children of the panel are step forms, `active` is the
   * child that carries the `active` class, and `steps` are the panel's step
   * indicators.
   */
  class Wizard {
    var currentStep: int
    var currentRole: string
    var tempUserId: string
    var selectedDoctorId: string
    var forms: seq<bool>
    var active: Option<nat>
    const steps: array<Mark>

    /** While a step form is active, the counter is its position among the step forms, counting from 1. */
    predicate Valid()
      reads this
    {
      active.Some? ==> active.value < |forms| && forms[active.value] && currentStep == 1 + StepForms(forms[..active.value])
    }

    /** The page as loaded: step 1, no role yet, and the panel's first step form active. */
    constructor(forms: seq<bool>, stepCount: nat)
      ensures Valid()
      ensures currentStep == 1 && currentRole == "" && tempUserId == "" && selectedDoctorId == ""
      ensures this.forms == forms && active == FirstStepForm(forms)
      ensures steps.Length == stepCount && fresh(steps)
    {
      currentStep := 1;
      currentRole := "";
      tempUserId := "";
      selectedDoctorId := "";
      this.forms := forms;
      active := FirstStepForm(forms);
      steps := new Mark[stepCount](_ => Mark(false, false));
    }

    /** A role card's click: the wizard now works in that role's panel; the step counter is untouched. */
    method SelectRole(role: string)
      requires Valid()
      modifies this
      ensures Valid()
      ensures currentRole == role
      ensures currentStep == old(currentStep) && forms == old(forms) && active == old(active)
      ensures tempUserId == old(tempUserId) && selectedDoctorId == old(selectedDoctorId)
    {
      currentRole := role;
    }

    /** `updateStepIndicator`: every step before `currentStep` is completed, and no step is ever active. */
    method UpdateStepIndicator()
      modifies steps
      ensures forall i :: 0 <= i < steps.Length ==> steps[i] == IndicatorMark(i, currentStep)
      ensures forall i :: 0 <= i < steps.Length ==> !steps[i].active && (steps[i].completed <==> i < currentStep)
    {
      for index := 0 to steps.Length
        invariant forall i :: 0 <= i < index ==> steps[i] == IndicatorMark(i, currentStep)
      {
        steps[index] := IndicatorMark(index, currentStep);
      }
    }

    /** `nextStep`: moves to the next sibling only when that sibling is a step form. */
    method NextStep() returns (outcome: StepOutcome)
      requires Valid()
      modifies this, steps
      ensures Valid()
      ensures old(active).None? ==> outcome == NoActiveForm
      ensures outcome == Moved <==>
        old(active.Some? && active.value + 1 < |forms| && forms[active.value + 1])
      ensures outcome == Moved ==>
        active == Some(old(active).value + 1) && currentStep == old(currentStep) + 1 &&
        forall i :: 0 <= i < steps.Length ==> steps[i] == IndicatorMark(i, currentStep)
      ensures outcome != Moved ==>
        active == old(active) && currentStep == old(currentStep) && steps[..] == old(steps[..])
      ensures forms == old(forms) && currentRole == old(currentRole)
      ensures tempUserId == old(tempUserId) && selectedDoctorId == old(selectedDoctorId)
    {
      if active.None? {
        return NoActiveForm;
      }
      var i := active.value;
      if i + 1 < |forms| && forms[i + 1] {
        StepFormsSnoc(forms, i);
        active := Some(i + 1);
        currentStep := currentStep + 1;
        UpdateStepIndicator();
        return Moved;
      }
      return Stayed;
    }

    /** `previousStep`: moves to the previous sibling only when that sibling is a step form. */
    method PreviousStep() returns (outcome: StepOutcome)
      requires Valid()
      modifies this, steps
      ensures Valid()
      ensures old(active).None? ==> outcome == NoActiveForm
      ensures outcome == Moved <==>
        old(active.Some? && active.value > 0 && forms[active.value - 1])
      ensures outcome == Moved ==>
        active == Some(old(active).value - 1) && currentStep == old(currentStep) - 1 &&
        forall i :: 0 <= i < steps.Length ==> steps[i] == IndicatorMark(i, currentStep)
      ensures outcome != Moved ==>
        active == old(active) && currentStep == old(currentStep) && steps[..] == old(steps[..])
      ensures forms == old(forms) && currentRole == old(currentRole)
      ensures tempUserId == old(tempUserId) && selectedDoctorId == old(selectedDoctorId)
    {
      if active.None? {
        return NoActiveForm;
      }
      var i := active.value;
      if i > 0 && forms[i - 1] {
        StepFormsSnoc(forms, i - 1);
        active := Some(i - 1);
        currentStep := currentStep - 1;
        UpdateStepIndicator();
        return Moved;
      }
      return Stayed;
    }

    /** `resetRegistrationForms`: back to step 1 with no role, no user and no doctor, and no step form active. */
    method ResetRegistrationForms()
      modifies this
      ensures Valid()
      ensures currentStep == 1 && currentRole == "" && tempUserId == "" && selectedDoctorId == ""
      ensures active.None? && forms == old(forms)
    {
      currentStep := 1;
      currentRole := "";
      tempUserId := "";
      selectedDoctorId := "";
      active := None;
    }
  }

  /**
   * Once the forms have been reset, `nextStep` finds no active step form:
   * a second registration in the same page cannot advance.
   */
  method NextAfterReset(w: Wizard) returns (outcome: StepOutcome)
    requires w.Valid()
    modifies w, w.steps
    ensures outcome == NoActiveForm && w.currentStep == 1
  {
    w.ResetRegistrationForms();
    outcome := w.NextStep();
  }

  /** Stepping forward and back returns to the same step. */
  method ForwardAndBack(w: Wizard) returns (first: StepOutcome, second: StepOutcome)
    requires w.Valid()
    modifies w, w.steps
    ensures first == Moved ==> second == Moved && w.active == old(w.active) && w.currentStep == old(w.currentStep)
  {
    first := w.NextStep();
    if first == Moved {
      second := w.PreviousStep();
    } else {
      second := Stayed;
    }
  }

  // ---------------------------------------------------------------------------
  // File inputs

  /** The file inputs of the registration forms. */
  datatype FileInput = PatientPhoto | DoctorPhoto | AdminPhoto | DoctorProof

  /** 5 MiB for photos, 10 MiB for the doctor's proof document. */
  function SizeLimit(input: FileInput): (r: nat)
    ensures input == DoctorProof ==> r == 10485760
    ensures input != DoctorProof ==> r == 5242880
  {
    if input == DoctorProof then 10 * 1024 * 1024 else 5 * 1024 * 1024
  }

  /** The `change` handler keeps the chosen file, or clears the input when the file is too large. */
  function KeepsChosenFile(input: FileInput, size: nat): (kept: bool)
    ensures kept <==> size <= SizeLimit(input)
  {
    !(size > SizeLimit(input))
  }

  /** A file the form keeps is also within the server's upload limit. */
  lemma KeptFilesFitServerLimit(input: FileInput, size: nat)
    requires KeepsChosenFile(input, size)
    ensures size <= Uploads.MaxFileSize
  {
  }
}
