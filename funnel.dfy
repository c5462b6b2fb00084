/** The lead-capture funnel (components/SalesFunnel.tsx).

    A step counter that stays within 1..4, moved forward by choosing an option
    and back by the back button, and a form record of which each choice writes
    exactly one field. */
module Funnel {
  import Shell

  /** One entry of the `steps` table: a step of options to choose from, or the contact-details form. */
  datatype StepSpec = Choice(title: string, options: seq<string>) | Details(title: string)

  const Steps: seq<StepSpec> := [
    Choice("Project Type", ["Website", "Mobile App", "UI/UX Design", "Custom Software"]),
    Choice("Budget Range", ["Under R3,000", "R3,000 - R5,000", "R5,000 - R10,000", "Over R10,000"]),
    Choice("Timeline", ["Urgent (< 1mo)", "1-3 Months", "Flexible (3mo+)"]),
    Details("Contact Details")
  ]

  const StepCount: int := 4

  /** The fields of the form record. */
  const FormKeys: set<string> := {"type", "budget", "timeline", "name", "email"}

  /** The form record as the funnel starts: every field empty. */
  const InitialForm: map<string, string> := map["type" := "", "budget" := "", "timeline" := "", "name" := "", "email" := ""]

  /** The field that the option buttons of a step write. */
  function StepKey(step: int): string
  {
    if step == 1 then "type" else if step == 2 then "budget" else "timeline"
  }

  /** `Math.round` on an exact real: the nearest integer, halves rounded up. */
  function Round(x: real): int
  {
    (x + 0.5).Floor
  }

  /** The progress percentage shown beside the step, `Math.round((step / 4) * 100)`. */
  function ProgressPercent(step: int): int
  {
    Round(step as real / StepCount as real * 100.0)
  }

  /** The progress label is a quarter per step, so it runs 25, 50, 75, 100 over the four steps. */
  lemma ProgressIsQuarterSteps(step: int)
    requires 1 <= step <= StepCount
    ensures ProgressPercent(step) == 25 * step
    ensures 25 <= ProgressPercent(step) <= 100
  {
    var x := step as real / 4.0 * 100.0;
    assert x == (25 * step) as real;
    assert (x + 0.5).Floor == 25 * step;
  }

  /** The steps table: three option steps with 4, 4 and 3 options, then the details form. */
  lemma StepsTable()
    ensures |Steps| == StepCount
    ensures forall i :: 0 <= i < StepCount - 1 ==> Steps[i].Choice?
    ensures Steps[StepCount - 1].Details?
    ensures |Steps[0].options| == 4 && |Steps[1].options| == 4 && |Steps[2].options| == 3
  {
  }

  /** Steps 1, 2 and 3 write three different fields of the record. */
  lemma StepKeysDistinct(i: int, j: int)
    requires 1 <= i < StepCount && 1 <= j < StepCount
    ensures StepKey(i) in FormKeys
    ensures StepKey(i) == StepKey(j) <==> i == j
  {
  }

  /** The SalesFunnel component's state. */
  class SalesFunnel {
    var step: int
    var formData: map<string, string>

    /** The step counter is within 1..4 and the record has exactly its five fields. */
    ghost predicate Valid()
      reads this
    {
      1 <= step <= StepCount && formData.Keys == FormKeys
    }

    constructor ()
      ensures Valid() && step == 1 && formData == InitialForm
    {
      step := 1;
      formData := InitialForm;
    }

    /** `steps[step - 1]`: the entry rendered for the current step, always in bounds. */
    function Current(): (spec: StepSpec)
      reads this
      requires Valid()
      ensures spec.Choice? <==> step < StepCount
    {
      Steps[step - 1]
    }

    /** Writes one field and moves one step forward unless already on the last step.
        The record keeps its shape exactly when the key is one of its fields. */
    method HandleOptionSelect(key: string, value: string)
      requires Valid()
      modifies this
      ensures formData == old(formData)[key := value]
      ensures step == if old(step) < StepCount then old(step) + 1 else old(step)
      ensures 1 <= step <= StepCount
      ensures Valid() <==> key in FormKeys
    {
      formData := formData[key := value];
      if step < StepCount {
        step := step + 1;
      }
    }

    /** Pressing option `i` of the current step: the step's own field gets that option. */
    method ChooseOption(i: nat)
      requires Valid() && step < StepCount && i < |Steps[step - 1].options|
      modifies this
      ensures Valid() && step == old(step) + 1
      ensures formData == old(formData)[StepKey(old(step)) := Steps[old(step) - 1].options[i]]
    {
      StepKeysDistinct(step, step);
      HandleOptionSelect(StepKey(step), Steps[step - 1].options[i]);
    }

    /** The back button, shown only after the first step. */
    method GoBack()
      requires Valid() && step > 1
      modifies this
      ensures Valid() && step == old(step) - 1 && formData == old(formData)
    {
      step := step - 1;
    }

    /** Typing into the name input of the details form. */
    method EditName(value: string)
      requires Valid()
      modifies this
      ensures Valid() && step == old(step) && formData == old(formData)["name" := value]
    {
      formData := formData["name" := value];
    }

    /** Typing into the email input of the details form. */
    method EditEmail(value: string)
      requires Valid()
      modifies this
      ensures Valid() && step == old(step) && formData == old(formData)["email" := value]
    {
      formData := formData["email" := value];
    }

    /** handleSubmit: calls onComplete, which returns the app to the home view,
        also when this funnel is animating out. */
    method HandleSubmit(app: Shell.App)
      requires Valid()
      requires app.Valid()
      modifies app
      ensures app.Valid() && app.State() == old(app.State()).(view := Shell.HomeView)
      ensures app.Screen() == Shell.PageStep(old(app.Screen()), Shell.FunnelDone)
    {
      app.FunnelComplete();
    }
  }
}
