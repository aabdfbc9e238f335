/**
  The wizard controller: the current step, the answer set being edited and
  the field errors shown after a submit attempt, with the "next", "back",
  multi-select and submit handlers.
*/
module Wizard {
  import opened Answers
  import opened Validation
  import opened Steps
  import opened MultiSelect

  /** The number of steps of the wizard. */
  const TotalSteps: int := 6

  /** `nextStep`: one step forward, only from a complete step before the last. */
  function Advance(step: int, d: FormData): (r: int)
    ensures r == step + 1 <==> step < TotalSteps && StepComplete(step, d)
    ensures r == step <==> !(step < TotalSteps && StepComplete(step, d))
  {
    if step < TotalSteps && StepComplete(step, d) then step + 1 else step
  }

  /** `prevStep`: one step back from any step after the first, whatever the answers. */
  function Retreat(step: int): (r: int)
    ensures r == step - 1 <==> step > 1
    ensures r == step <==> step <= 1
  {
    if step > 1 then step - 1 else step
  }

  /** What the user does between two renders of the wizard. */
  datatype Event = Next | Prev | Change(answers: FormData)

  /** The step reached from `step` with answers `d` after the events, in order. */
  function Run(step: int, d: FormData, events: seq<Event>): int
    decreases |events|
  {
    if events == [] then step
    else match events[0]
      case Next => Run(Advance(step, d), d, events[1..])
      case Prev => Run(Retreat(step), d, events[1..])
      case Change(d') => Run(step, d', events[1..])
  }

  /** From a step in [1, 6], every sequence of events stays within [1, 6]. */
  lemma {:induction false} RunStaysInRange(step: int, d: FormData, events: seq<Event>)
    requires 1 <= step <= TotalSteps
    ensures 1 <= Run(step, d, events) <= TotalSteps
    decreases |events|
  {
    if events != [] {
      match events[0]
      case Next => RunStaysInRange(Advance(step, d), d, events[1..]);
      case Prev => RunStaysInRange(Retreat(step), d, events[1..]);
      case Change(d') => RunStaysInRange(step, d', events[1..]);
    }
  }

  /** Every run of the wizard, which starts on step 1, stays within [1, 6]. */
  lemma WizardStaysInRange(events: seq<Event>)
    ensures 1 <= Run(1, Defaults(), events) <= TotalSteps
  {
    RunStaysInRange(1, Defaults(), events);
  }

  /** "Back" undoes a successful "next". */
  lemma AdvanceThenRetreat(step: int, d: FormData)
    requires 1 <= step
    requires Advance(step, d) != step
    ensures Retreat(Advance(step, d)) == step
  {
  }

  /** "Next" undoes "back" when the previous step is complete. */
  lemma RetreatThenAdvance(step: int, d: FormData)
    requires 1 < step <= TotalSteps
    requires StepComplete(step - 1, d)
    ensures Advance(Retreat(step), d) == step
  {
  }

  /** The outcome of a submit attempt. */
  datatype SubmitOutcome =
    | Blocked   // validation failed: no request was made
    | Accepted  // the request was made and the endpoint answered with an ok status
    | Failed    // the request was made and failed (non-ok status or network error)

  /** The answers and step state of one wizard session. */
  class AssessmentWizard {
    var currentStep: int
    var answers: FormData
    var fieldErrors: map<Field, string>

    /** The step is within [1, 6] and both multi-selects hold offered options, each once. */
    ghost predicate Valid()
      reads this
    {
      && 1 <= currentStep <= TotalSteps
      && Selection(CurrentList(answers.objetivos), ObjetivoOptions)
      && Selection(CurrentList(answers.disponibilidadDias), DiasSemana)
    }

    /** `isCurrentStepValid`: whether "next" is enabled. */
    function IsCurrentStepValid(): bool
      reads this
    {
      StepComplete(currentStep, answers)
    }

    /** A fresh wizard: step 1, the declared defaults and no field errors. */
    constructor ()
      ensures Valid()
      ensures currentStep == 1 && answers == Defaults() && fieldErrors == map[]
    {
      currentStep := 1;
      answers := Defaults();
      fieldErrors := map[];
    }

    /** The "next" button. */
    method NextStep()
      requires Valid()
      modifies this`currentStep
      ensures Valid()
      ensures currentStep == Advance(old(currentStep), answers)
    {
      if currentStep < TotalSteps && IsCurrentStepValid() {
        currentStep := currentStep + 1;
      }
    }

    /** The "back" button. */
    method PrevStep()
      requires Valid()
      modifies this`currentStep
      ensures Valid()
      ensures currentStep == Retreat(old(currentStep))
    {
      if currentStep > 1 {
        currentStep := currentStep - 1;
      }
    }

    /** A plain field edit: every field may change except the two multi-selects. */
    method Edit(d: FormData)
      requires Valid()
      modifies this`answers
      ensures Valid()
      ensures answers == d.(objetivos := old(answers).objetivos, disponibilidadDias := old(answers).disponibilidadDias)
    {
      answers := d.(objetivos := answers.objetivos, disponibilidadDias := answers.disponibilidadDias);
    }

    /** A click on one goal of the "objetivos" multi-select. */
    method ToggleObjetivo(objetivo: string)
      requires Valid()
      requires objetivo in ObjetivoOptions
      modifies this`answers
      ensures Valid()
      ensures answers == old(answers).(objetivos := Some(Toggle(CurrentList(old(answers).objetivos), objetivo)))
    {
      var currentValue := CurrentList(answers.objetivos);
      ToggleKeepsSelection(currentValue, ObjetivoOptions, objetivo);
      if objetivo in currentValue {
        answers := answers.(objetivos := Some(Without(currentValue, objetivo)));
      } else {
        answers := answers.(objetivos := Some(currentValue + [objetivo]));
      }
    }

    /** A click on one day of the "disponibilidad" multi-select. */
    method ToggleDia(dia: string)
      requires Valid()
      requires dia in DiasSemana
      modifies this`answers
      ensures Valid()
      ensures answers == old(answers).(disponibilidadDias := Some(Toggle(CurrentList(old(answers).disponibilidadDias), dia)))
    {
      var currentValue := CurrentList(answers.disponibilidadDias);
      ToggleKeepsSelection(currentValue, DiasSemana, dia);
      if dia in currentValue {
        answers := answers.(disponibilidadDias := Some(Without(currentValue, dia)));
      } else {
        answers := answers.(disponibilidadDias := Some(currentValue + [dia]));
      }
    }

    /**
      `onSubmit`: clears the field errors, validates the whole form and
      records every error; the request is made only when there is none.
      `responseOk` is what the endpoint would answer.
    */
    method Submit(responseOk: bool) returns (outcome: SubmitOutcome)
      requires Valid()
      modifies this`fieldErrors
      ensures Valid()
      ensures fieldErrors == FormErrors(answers)
      ensures outcome == Blocked <==> FormErrors(answers) != map[]
      ensures outcome != Blocked ==> (outcome == Accepted <==> responseOk)
    {
      fieldErrors := map[];
      var validationErrors := FormErrors(answers);
      if |validationErrors| > 0 {
        var pending := validationErrors.Keys;
        while pending != {}
          invariant pending <= validationErrors.Keys
          invariant fieldErrors.Keys == validationErrors.Keys - pending
          invariant forall f :: f in fieldErrors ==> fieldErrors[f] == validationErrors[f]
          decreases pending
        {
          var field :| field in pending;
          fieldErrors := fieldErrors[field := validationErrors[field]];
          pending := pending - {field};
        }
        return Blocked;
      }
      outcome := if responseOk then Accepted else Failed;
    }
  }
}
