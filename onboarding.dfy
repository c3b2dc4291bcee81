/**
 * The three-step merchant onboarding form of the web app: business details,
 * then location and contact, then a review page. The component's state is the
 * step number and the form record; the handlers move the step and edit one field.
 *
 * Rendering is reduced to which buttons are shown, whether Next is disabled and
 * which fields have inputs on each step.
 */
module Onboarding {
  import opened Wrappers

  const LastStep: int := 3

  datatype Field = BusinessName | Description | Address | City | Phone | Email

  datatype OnboardingData = OnboardingData(
    businessName: string, description: string, address: string,
    city: string, phone: string, email: string)

  function FieldValue(d: OnboardingData, f: Field): string {
    match f
    case BusinessName => d.businessName
    case Description => d.description
    case Address => d.address
    case City => d.city
    case Phone => d.phone
    case Email => d.email
  }

  /** `{ ...prev, [field]: value }`: the one field replaced, the others kept. */
  function WithField(d: OnboardingData, f: Field, value: string): (r: OnboardingData)
    ensures FieldValue(r, f) == value
    ensures forall g | g != f :: FieldValue(r, g) == FieldValue(d, g)
  {
    match f
    case BusinessName => d.(businessName := value)
    case Description => d.(description := value)
    case Address => d.(address := value)
    case City => d.(city := value)
    case Phone => d.(phone := value)
    case Email => d.(email := value)
  }

  /** The email the form starts with: the signed-in user's first address, or "". */
  function InitialEmail(userEmails: Option<seq<string>>): (r: string)
    ensures userEmails.Some? && |userEmails.value| > 0 ==> r == userEmails.value[0]
    ensures userEmails.None? || userEmails.value == [] ==> r == ""
  {
    if userEmails.Some? && |userEmails.value| > 0 then userEmails.value[0] else ""
  }

  function InitialForm(userEmails: Option<seq<string>>): (d: OnboardingData)
    ensures d.city == "Doha" && d.email == InitialEmail(userEmails)
    ensures d.businessName == "" && d.description == "" && d.address == "" && d.phone == ""
  {
    OnboardingData("", "", "", "Doha", "", InitialEmail(userEmails))
  }

  // ---------------------------------------------------------------------------
  // The component state as a value

  datatype FormState = FormState(step: int, form: OnboardingData)

  function Next(s: FormState): (r: FormState)
    ensures r.form == s.form
    ensures s.step < LastStep ==> r.step == s.step + 1
    ensures s.step >= LastStep ==> r == s
  {
    if s.step < LastStep then s.(step := s.step + 1) else s
  }

  function Previous(s: FormState): (r: FormState)
    ensures r.form == s.form
    ensures s.step > 1 ==> r.step == s.step - 1
    ensures s.step <= 1 ==> r == s
  {
    if s.step > 1 then s.(step := s.step - 1) else s
  }

  /** The fields that must be filled before leaving a step with Next. */
  function RequiredFields(step: int): set<Field> {
    if step == 2 then {BusinessName, Address, Phone} else {BusinessName}
  }

  /**
   * The Next button's disabled expression: no business name, or on step 2 no
   * address or no phone. Next is enabled exactly when every required field of
   * the step is filled.
   */
  predicate NextDisabled(s: FormState): (r: bool)
    ensures !r <==> forall f | f in RequiredFields(s.step) :: FieldValue(s.form, f) != ""
  {
    assert BusinessName in RequiredFields(s.step);
    assert s.step == 2 ==> Address in RequiredFields(s.step) && Phone in RequiredFields(s.step);
    s.form.businessName == "" || (s.step == 2 && (s.form.address == "" || s.form.phone == ""))
  }

  /** The progress bar's width in percent: a third of the bar per step. */
  function ProgressPercent(step: int): (r: real)
    ensures 1 <= step <= LastStep ==> 0.0 < r <= 100.0
    ensures r == 100.0 <==> step == LastStep
  {
    (step as real / LastStep as real) * 100.0
  }

  datatype Buttons = Buttons(previous: bool, next: bool, submit: bool)

  /** Previous from step 2 on; Next before the last step, Create My Profile on it. */
  function ShownButtons(s: FormState): (b: Buttons)
    ensures b.previous <==> s.step > 1
    ensures b.next <==> s.step < LastStep
    ensures b.submit <==> !b.next
  {
    Buttons(s.step > 1, s.step < LastStep, !(s.step < LastStep))
  }

  /** The fields that have an input on each step; the review step has none. */
  function EditableFields(step: int): (fs: set<Field>)
    ensures step == 1 ==> fs == {BusinessName, Description}
    ensures step == 2 ==> fs == {Address, City, Phone, Email}
    ensures step != 1 && step != 2 ==> fs == {}
  {
    if step == 1 then {BusinessName, Description}
    else if step == 2 then {Address, City, Phone, Email}
    else {}
  }

  /** What a user can do on the rendered page. */
  datatype UiEvent = ClickNext | ClickPrevious | Type(field: Field, value: string)

  /**
   * One user action: a button acts only when it is shown (and, for Next, enabled);
   * typing changes a field only when the current step shows its input.
   */
  function UiStep(s: FormState, e: UiEvent): (r: FormState)
    ensures 1 <= s.step <= LastStep ==> 1 <= r.step <= LastStep
    ensures r.step > s.step ==> e.ClickNext? && r.step == s.step + 1 && !NextDisabled(s)
    ensures r.step < s.step ==> e.ClickPrevious? && r.step == s.step - 1
    ensures e.Type? ==> r.step == s.step
    ensures r.form != s.form ==> e.Type? && e.field in EditableFields(s.step)
    ensures e.Type? && e.field in EditableFields(s.step) ==> r.form == WithField(s.form, e.field, e.value)
    ensures e.ClickNext? && 1 <= s.step < LastStep && !NextDisabled(s) ==> r == Next(s) && r.step == s.step + 1
    ensures e.ClickPrevious? && 1 < s.step <= LastStep ==> r == Previous(s) && r.step == s.step - 1
  {
    match e
    case ClickNext => if ShownButtons(s).next && !NextDisabled(s) then Next(s) else s
    case ClickPrevious => if ShownButtons(s).previous then Previous(s) else s
    case Type(f, v) => if f in EditableFields(s.step) then s.(form := WithField(s.form, f, v)) else s
  }

  function Run(s: FormState, events: seq<UiEvent>): FormState
    decreases |events|
  {
    if events == [] then s else Run(UiStep(s, events[0]), events[1..])
  }

  /**
   * What the guard guarantees of every reachable state: the step is 1 to 3, past
   * step 1 there is a business name, and on the review step an address and phone.
   */
  predicate Reachable(s: FormState) {
    && 1 <= s.step <= LastStep
    && (s.step >= 2 ==> s.form.businessName != "")
    && (s.step == LastStep ==> s.form.address != "" && s.form.phone != "")
  }

  lemma UiStepKeepsReachable(s: FormState, e: UiEvent)
    requires Reachable(s)
    ensures Reachable(UiStep(s, e))
  {
  }

  /** From the initial form, any sequence of user actions keeps the guard's guarantees. */
  lemma {:induction false} RunKeepsReachable(s: FormState, events: seq<UiEvent>)
    requires Reachable(s)
    ensures Reachable(Run(s, events))
    decreases |events|
  {
    if events != [] {
      UiStepKeepsReachable(s, events[0]);
      RunKeepsReachable(UiStep(s, events[0]), events[1..]);
    }
  }

  lemma InitialReachable(userEmails: Option<seq<string>>)
    ensures Reachable(FormState(1, InitialForm(userEmails)))
  {
  }

  /** Next and Previous alone keep the step within 1 to 3, whatever the form holds. */
  lemma {:induction false} HandlersKeepStepInRange(s: FormState, clicks: seq<bool>)
    requires 1 <= s.step <= LastStep
    ensures 1 <= StepAfter(s, clicks).step <= LastStep
    decreases |clicks|
  {
    if clicks != [] {
      var t := if clicks[0] then Next(s) else Previous(s);
      HandlersKeepStepInRange(t, clicks[1..]);
    }
  }

  /** handleNext (true) and handlePrevious (false) called in sequence. */
  function StepAfter(s: FormState, clicks: seq<bool>): FormState
    decreases |clicks|
  {
    if clicks == [] then s else StepAfter(if clicks[0] then Next(s) else Previous(s), clicks[1..])
  }

  // ---------------------------------------------------------------------------
  // The component

  class MerchantOnboarding {
    var step: int
    var formData: OnboardingData

    function State(): FormState
      reads this
    {
      FormState(step, formData)
    }

    ghost predicate Valid()
      reads this
    {
      1 <= step <= LastStep
    }

    /** useState(1) and the initial form. */
    constructor (userEmails: Option<seq<string>>)
      ensures Valid() && Reachable(State())
      ensures step == 1 && formData == InitialForm(userEmails)
    {
      step := 1;
      formData := OnboardingData("", "", "", "Doha", "", InitialEmail(userEmails));
    }

    method HandleInputChange(field: Field, value: string)
      modifies this`formData
      ensures formData == WithField(old(formData), field, value)
    {
      formData := WithField(formData, field, value);
    }

    method HandleNext()
      requires Valid()
      modifies this`step
      ensures Valid()
      ensures State() == Next(old(State()))
    {
      if step < LastStep {
        step := step + 1;
      }
    }

    method HandlePrevious()
      requires Valid()
      modifies this`step
      ensures Valid()
      ensures State() == Previous(old(State()))
    {
      if step > 1 {
        step := step - 1;
      }
    }

    /** The page reacting to one user action. */
    method Dispatch(e: UiEvent)
      requires Valid()
      modifies this
      ensures Valid()
      ensures State() == UiStep(old(State()), e)
    {
      match e {
        case ClickNext =>
          if step < LastStep && !NextDisabled(State()) {
            HandleNext();
          }
        case ClickPrevious =>
          if step > 1 {
            HandlePrevious();
          }
        case Type(f, v) =>
          if f in EditableFields(step) {
            HandleInputChange(f, v);
          }
      }
    }
  }
}
