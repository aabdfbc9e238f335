# Client assessment wizard — a Dafny model

This project models the core of the client intake form of the JernieFit
site (`src/components/ClientAssessmentForm.tsx`): a six-step wizard in
which a prospective client answers questions about personal data, health,
habits, goals, training preferences and nutrition, and then submits the
answers.

The model has five modules:

- `Answers`: the answer set `FormData`, with every field optional
  (`None` stands for `undefined`), the field identifiers, the declared
  defaults, the two option lists, and the JavaScript notions of "present"
  the checks rely on. A string is present when it is defined and non-empty.
  A number is present when it is defined and non-zero. A list is present
  when it is defined and non-empty.
- `Validation`: full-form validation (`validateForm`). There are twelve
  rules, each with its exact Spanish message. They are applied in source
  order and produce an error map from field to message.
- `Steps`: the per-step completeness check (`validateStep`), which enables
  the "next" button. It checks presence only, never ranges.
- `MultiSelect`: the toggle behind the "días disponibles" and "objetivos"
  buttons. A selected option is filtered out; an unselected one is appended.
- `Wizard`: navigation (`nextStep`, `prevStep`) as functions on the step
  number, and the class `AssessmentWizard`. The class holds the current
  step, the answers and the displayed field errors, and its methods are the
  button handlers and the submit handler. The submit handler clears the
  errors and validates. If there are errors, it records every one of them
  and makes no request. The answer of the endpoint is a parameter of
  `Submit`.

## Model

| member | source | states |
|---|---|---|
| Answers.Defaults | src/components/ClientAssessmentForm.tsx:107-118 | definition only, no contract: both lists empty, the eight yes/no answers "no", every other field undefined; its consequences are stated by Steps.DefaultsByStep and the wizard's constructor |
| Validation.Message | src/components/ClientAssessmentForm.tsx:9-20 | definition only, no contract: the twelve error messages, word for word |
| Validation.Violates | src/components/ClientAssessmentForm.tsx:9-20 | definition only, no contract: the twelve rule conditions, with JavaScript truthiness |
| Validation.Record | src/components/ClientAssessmentForm.tsx:9-20 | definition only, no contract: one conditional assignment of the error record; stated by Validation.RecordEntries |
| Validation.ApplyRules | src/components/ClientAssessmentForm.tsx:7-22 | definition only, no contract: the successive assignments as a fold over the rule list; stated by Validation.ApplyRulesEntries |
| Validation.FormErrors | src/components/ClientAssessmentForm.tsx:6-23 | definition only, no contract: `validateForm`, the fold from the empty record in source order; stated by Validation.FormErrorsEntries |
| Validation.FormErrorsEntries | src/components/ClientAssessmentForm.tsx:6-23 | the error map has exactly the checked fields whose value breaks its rule as keys, each mapped to that rule's message |
| Validation.ApplyRulesEntries | src/components/ClientAssessmentForm.tsx:7-22 | applying the rules one after another keeps earlier entries and adds a labelled entry for each listed field that breaks its rule |
| Validation.RecordEntries | src/components/ClientAssessmentForm.tsx:9 | one rule adds its own field's entry, and only when the field breaks the rule |
| Validation.ErrorEntry | src/components/ClientAssessmentForm.tsx:9-20 | for any single field: it is an error key iff it is checked and breaks its rule, and its message is that rule's message |
| Validation.EdadRule | src/components/ClientAssessmentForm.tsx:10 | no age error iff an age in [16, 100] is given; 0 counts as absent |
| Validation.EdadBoundaries | src/components/ClientAssessmentForm.tsx:10 | 15 and 101 are rejected; 16 and 100 are accepted |
| Validation.AlturaRule | src/components/ClientAssessmentForm.tsx:11 | no height error iff a height in [100, 250] is given |
| Validation.AlturaBoundaries | src/components/ClientAssessmentForm.tsx:11 | 99 and 251 are rejected; 100 and 250 are accepted |
| Validation.PesoActualRule | src/components/ClientAssessmentForm.tsx:12 | the optional weight never errs when absent or 0; otherwise it errs iff it lies outside [30, 300] |
| Validation.ListRules | src/components/ClientAssessmentForm.tsx:15-20 | each multi-select question errs iff it is unanswered or empty |
| Validation.OneSelectionClearsError | src/components/ClientAssessmentForm.tsx:15-20 | a list with at least one element never produces the list error |
| Validation.ErrorKeys | src/components/ClientAssessmentForm.tsx:6-23 | only the twelve checked fields can be error keys; no conditional follow-up field ever is one |
| Validation.ErrorsDependOnCheckedValuesOnly | src/components/ClientAssessmentForm.tsx:6-23 | two answer sets that agree on the twelve checked values have the same error map |
| Validation.GoverningAnswerOff | src/components/ClientAssessmentForm.tsx:6-23 | answering "no" to a governing question leaves the error map unchanged, whatever the stale follow-up detail holds |
| Steps.StepComplete | src/components/ClientAssessmentForm.tsx:26-52 | definition only, no contract: `validateStep`, the presence tests of each step and `true` for any other step number; stated by the Steps lemmas below |
| Steps.GoalsStep | src/components/ClientAssessmentForm.tsx:40-41 | the goals step is complete iff at least one goal is selected |
| Steps.OtherStepsComplete | src/components/ClientAssessmentForm.tsx:49-50 | any step number outside 1..6 counts as complete |
| Steps.PresenceIsNotRange | src/components/ClientAssessmentForm.tsx:10-29 | age 15 completes step 1, yet full-form validation reports an age error |
| Steps.WaterDefinedVersusTruthy | src/components/ClientAssessmentForm.tsx:19-48 | an empty water answer completes step 6, yet full-form validation reports it |
| Steps.DefaultsByStep | src/components/ClientAssessmentForm.tsx:107-118 | under the declared defaults step 2 is complete, and steps 1, 3, 4, 5 and 6 are not |
| Steps.FrequencyCountsOnStep5 | src/components/ClientAssessmentForm.tsx:35-46 | the exercise frequency never affects step 3, and an unanswered frequency blocks step 5 |
| Steps.ValidFormCompletesEveryStep | src/components/ClientAssessmentForm.tsx:6-52 | an answer set with no validation error and defined yes/no answers completes every step |
| Steps.SelectingAGoal | src/components/ClientAssessmentForm.tsx:782-788 | with no goal selected, step 4 is incomplete and has an error; one click on a goal completes it and clears the error |
| MultiSelect.Toggle | src/components/ClientAssessmentForm.tsx:653-660 | definition only, no contract: the click handler of one option button (the same code serves the days and, at lines 782-788, the goals); stated by the MultiSelect lemmas below |
| MultiSelect.Without | src/components/ClientAssessmentForm.tsx:656 | the filter drops every occurrence of the clicked value and keeps the count of every other value |
| MultiSelect.ToggleMembership | src/components/ClientAssessmentForm.tsx:653-660 | after a click, the clicked option is selected iff it was not before; every other option's membership is unchanged |
| MultiSelect.TogglePresent | src/components/ClientAssessmentForm.tsx:655-656 | clicking a selected option removes it, keeps every other count and shortens the list |
| MultiSelect.ToggleAbsent | src/components/ClientAssessmentForm.tsx:657-658 | clicking an unselected option appends it at the end |
| MultiSelect.WithoutAbsent | src/components/ClientAssessmentForm.tsx:656 | filtering out a value that does not occur changes nothing |
| MultiSelect.WithoutAppend | src/components/ClientAssessmentForm.tsx:656 | the filter distributes over concatenation |
| MultiSelect.ToggleTwiceAbsent | src/components/ClientAssessmentForm.tsx:653-660 | two clicks on an unselected option give back the original selection |
| MultiSelect.ToggleTwicePresent | src/components/ClientAssessmentForm.tsx:653-660 | two clicks on a selected option drop every copy of it and append one copy at the end |
| MultiSelect.WithoutDistinct | src/components/ClientAssessmentForm.tsx:656 | filtering keeps a duplicate-free list duplicate-free |
| MultiSelect.ToggleDistinct | src/components/ClientAssessmentForm.tsx:653-660 | a click never introduces a duplicate |
| MultiSelect.ToggleKeepsSelection | src/components/ClientAssessmentForm.tsx:776-788 | clicking an offered option keeps the selection duplicate-free and confined to the offered options |
| Wizard.Advance | src/components/ClientAssessmentForm.tsx:162-167 | "next" moves one step forward iff the step is before the last and is complete; otherwise it stays |
| Wizard.Retreat | src/components/ClientAssessmentForm.tsx:168-172 | "back" moves one step back iff the step is after the first, whatever the answers |
| Wizard.Run | src/components/ClientAssessmentForm.tsx:162-172 | definition only, no contract: the step reached after a sequence of next, back and edit events; stated by Wizard.RunStaysInRange |
| Wizard.RunStaysInRange | src/components/ClientAssessmentForm.tsx:162-172 | from any step in [1, 6], every sequence of next, back and edit events stays in [1, 6] |
| Wizard.WizardStaysInRange | src/components/ClientAssessmentForm.tsx:103-118 | a session that starts on step 1 with the defaults never leaves [1, 6] |
| Wizard.AdvanceThenRetreat | src/components/ClientAssessmentForm.tsx:162-172 | "back" undoes a "next" that moved |
| Wizard.RetreatThenAdvance | src/components/ClientAssessmentForm.tsx:162-172 | "next" undoes "back" when the previous step is complete |
| Wizard.AssessmentWizard.constructor | src/components/ClientAssessmentForm.tsx:103-119 | a new wizard is on step 1, holds the declared defaults and shows no errors |
| Wizard.AssessmentWizard.IsCurrentStepValid | src/components/ClientAssessmentForm.tsx:159 | definition only, no contract: `validateStep` of the current step on the current answers |
| Wizard.AssessmentWizard.NextStep | src/components/ClientAssessmentForm.tsx:159-167 | the new step is `Advance` of the old step and the current answers; the invariant is kept |
| Wizard.AssessmentWizard.PrevStep | src/components/ClientAssessmentForm.tsx:168-172 | the new step is `Retreat` of the old step; the invariant is kept |
| Wizard.AssessmentWizard.Edit | src/components/ClientAssessmentForm.tsx:309-375 | an edit through a text, number or yes/no input replaces every answer except the two multi-selects, which only the toggles change |
| Wizard.AssessmentWizard.ToggleObjetivo | src/components/ClientAssessmentForm.tsx:782-788 | the goals answer becomes the toggle of its current value; everything else is unchanged and the selection stays valid |
| Wizard.AssessmentWizard.ToggleDia | src/components/ClientAssessmentForm.tsx:653-660 | the availability answer becomes the toggle of its current value; everything else is unchanged and the selection stays valid |
| Wizard.AssessmentWizard.Submit | src/components/ClientAssessmentForm.tsx:121-153 | the displayed errors become exactly the validation errors; the submit is blocked iff there is one; otherwise the outcome follows the endpoint's answer |

## Left out

- The rendering (JSX, styling, icons, the progress-bar percentage, the step titles) is not modelled; it computes nothing the handlers depend on.
- The form library is not modelled. The store is the `answers` field. `watch()` reads it directly. `setError` and `clearErrors` become updates of `fieldErrors`.
- The network request, the alerts and the console log are not modelled. The endpoint's answer is the `responseOk` parameter of `Submit`, and the outcome is returned as a value. A thrown network error and a non-ok status both end as `Failed`, as in the source.
- `isSubmitting`, the button's disabled state while a request is in flight, is not modelled, because the model has no concurrency.
- The conversion of input strings by `parseInt` and `parseFloat` is not modelled. Age and height are whole numbers, the weight is a real number, and `NaN` does not arise.
- Validation.FormErrors: the source builds the error record with twelve successive statements that update a map in place. The model applies the same twelve rules, in the same order, as a recursive fold over the rule list, and does not keep the stepwise mutation.
- Wizard.AssessmentWizard.Submit: the source records the errors in the insertion order of the record. The model records them in an unspecified order over the key set, which gives the same final error map.
- Wizard.AssessmentWizard.Submit: there is no "submitted" state. After a successful request the source only shows an alert and keeps the form as it is, and the model does the same.
- Steps.StepComplete: the per-step check tests presence only. It follows the code, which does not apply the age, height or weight ranges that full-form validation applies.
- The conditional follow-up fields (condition, medication and injury details, work area and hours, exercise type, other goal, diet type) are only shown by the form; no rule checks them.
- The site's configuration, content collections, constants and runtime polyfills (`astro.config.mjs`, `src/content.config.ts`, `src/consts.ts`, `src/polyfills.ts`, `src/worker-polyfills.js`) are not part of this model.
