/**
  The three-step enrollment wizard (frontend/src/components/EnrollmentSection.jsx).

  The component's React state is the record `Wizard`; every button and
  handler is an `Event`, `Available` says when its control is on screen and
  enabled, and `Apply` is what the handler does to the state. The class
  `EnrollmentSection` holds the same state in fields and has one method per
  handler, each proved to move its fields exactly as `Apply` says.
 */
module EnrollmentUi {
  import opened Wrappers
  import opened JsValues

  /** The five contact fields of step 3. */
  datatype ContactField = StudentFullName | ParentGuardianName | Email | Phone | Address

  /** The `formData` draft. */
  datatype ContactDraft = ContactDraft(
    studentFullName: string,
    parentGuardianName: string,
    email: string,
    phone: string,
    address: string)
  {
    function Get(f: ContactField): string
    {
      match f
      case StudentFullName => studentFullName
      case ParentGuardianName => parentGuardianName
      case Email => email
      case Phone => phone
      case Address => address
    }
  }

  const EmptyContact := ContactDraft("", "", "", "", "")

  /** `handleInputChange`: set one field of the draft, keep the other four. */
  function SetField(d: ContactDraft, f: ContactField, v: string): (r: ContactDraft)
    ensures r.Get(f) == v
    ensures forall g :: g != f ==> r.Get(g) == d.Get(g)
  {
    match f
    case StudentFullName => d.(studentFullName := v)
    case ParentGuardianName => d.(parentGuardianName := v)
    case Email => d.(email := v)
    case Phone => d.(phone := v)
    case Address => d.(address := v)
  }

  /** The values of the step-1 radio buttons, in display order. */
  const ProgramOptionValues: seq<string> :=
    ["little_learners", "young_explorers", "smart_kids", "tech_teens", "future_leaders"]

  /** The plan radio group's two values. */
  predicate IsPlanOption(p: string)
  {
    p == "monthly" || p == "quarterly"
  }

  /** Whether `p` is the program `programs.find` looks for: `p.program_type === selected`. */
  predicate Matches(p: ProgramJson, selected: Option<string>)
  {
    selected == Some(p.programType)
  }

  /** `i` is the first position of `programs` holding the selected program. */
  predicate IsFirstMatch(programs: seq<ProgramJson>, selected: Option<string>, i: int)
  {
    && 0 <= i < |programs|
    && Matches(programs[i], selected)
    && forall j :: 0 <= j < i ==> !Matches(programs[j], selected)
  }

  /** `getSelectedProgramDetails`: the first program of the selected type, if any. */
  function SelectedProgramDetails(programs: seq<ProgramJson>, selected: Option<string>): (r: Option<ProgramJson>)
    ensures r.None? <==> forall j :: 0 <= j < |programs| ==> !Matches(programs[j], selected)
    ensures r.Some? ==> exists i :: IsFirstMatch(programs, selected, i) && programs[i] == r.value
  {
    if |programs| == 0 then None
    else if Matches(programs[0], selected) then
      assert IsFirstMatch(programs, selected, 0);
      Some(programs[0])
    else
      var rest := SelectedProgramDetails(programs[1..], selected);
      if rest.Some? then
        var k :| IsFirstMatch(programs[1..], selected, k) && programs[1..][k] == rest.value;
        assert IsFirstMatch(programs, selected, k + 1);
        rest
      else
        assert forall j :: 1 <= j < |programs| ==> programs[j] == programs[1..][j - 1];
        rest
  }

  /** The first match is unique, so `IsFirstMatch` pins one position down. */
  lemma FirstMatchIsUnique(programs: seq<ProgramJson>, selected: Option<string>, i: int, k: int)
    requires IsFirstMatch(programs, selected, i) && IsFirstMatch(programs, selected, k)
    ensures i == k
  {
  }

  /**
    `calculateAmount`: 0 when no program has the selected type, otherwise the
    first match's quarterly price for the quarterly plan and its monthly
    price for any other plan.
   */
  function CalculateAmount(programs: seq<ProgramJson>, selected: Option<string>, plan: string): (amount: int)
    ensures (forall j :: 0 <= j < |programs| ==> !Matches(programs[j], selected)) ==> amount == 0
    ensures forall i :: IsFirstMatch(programs, selected, i) ==>
      amount == (if plan == "quarterly" then programs[i].quarterlyPrice else programs[i].monthlyPrice)
  {
    var program := SelectedProgramDetails(programs, selected);
    if program.None? then 0
    else if plan == "quarterly" then program.value.quarterlyPrice
    else program.value.monthlyPrice
  }

  /**
    The price follows the plan without another lookup: a program priced
    5000 a month and 12000 a quarter shows 12000 on the quarterly plan and
    5000 after switching back. With the page's default empty list it is 0.
   */
  lemma PriceFollowsPlan(selected: Option<string>, plan: string)
    ensures var p := ProgramJson("Tech Teens Professional", "Ages 13-15", "", 5000, 12000, [], "tech_teens");
      && CalculateAmount([p], Some("tech_teens"), "quarterly") == 12000
      && CalculateAmount([p], Some("tech_teens"), "monthly") == 5000
    ensures CalculateAmount([], selected, plan) == 0
  {
    var p := ProgramJson("Tech Teens Professional", "Ages 13-15", "", 5000, 12000, [], "tech_teens");
    assert IsFirstMatch([p], Some("tech_teens"), 0);
  }

  /** The component's state: `step`, `selectedProgram`, `paymentPlan`, `paymentMethod`, `loading`, `formData`. */
  datatype Wizard = Wizard(
    step: int,
    selectedProgram: Option<string>,
    paymentPlan: string,
    paymentMethod: string,
    loading: bool,
    formData: ContactDraft)

  /** The state on mount. */
  const Initial := Wizard(1, None, "monthly", "card", false, EmptyContact)

  /** The component's buttons and handlers, and the two outcomes of the POST. */
  datatype Event =
    | SelectProgram(value: string)        // a step-1 radio button
    | ContinueToPlan                      // "Continue to Payment Plan"
    | ChoosePlan(plan: string)            // the step-2 radio group
    | BackToProgram                       // step 2 "Back"
    | ContinueToDetails                   // "Continue to Details"
    | BackToPlan                          // step 3 "Back"
    | Edit(field: ContactField, text: string)  // a step-3 input
    | Submit                              // the form's submit
    | SubmitSucceeded                     // the POST resolved
    | SubmitFailed                        // the POST rejected
  {
    predicate IsNavigation()
    {
      ContinueToPlan? || BackToProgram? || ContinueToDetails? || BackToPlan?
    }
  }

  /** Whether the control behind `e` is rendered in state `s` (or, for an outcome, a POST is in flight). */
  predicate Available(s: Wizard, e: Event)
  {
    match e
    case SelectProgram(v) => s.step == 1 && v in ProgramOptionValues
    case ContinueToPlan => s.step == 1
    case ChoosePlan(p) => s.step == 2 && IsPlanOption(p)
    case BackToProgram => s.step == 2
    case ContinueToDetails => s.step == 2
    case BackToPlan => s.step == 3
    case Edit(_, _) => s.step == 3
    case Submit => s.step == 3
    case SubmitSucceeded => s.loading
    case SubmitFailed => s.loading
  }

  /** The forward button of step 1: `disabled={!selectedProgram}`. */
  predicate CanContinueToPlan(s: Wizard)
    ensures Inv(s) ==> (CanContinueToPlan(s) <==> s.selectedProgram.Some?)
  {
    s.selectedProgram.Some? && s.selectedProgram.value != ""
  }

  /** The final submit button: `disabled={loading}`. */
  predicate CanSubmit(s: Wizard)
  {
    !s.loading
  }

  /** What the handler of `e` does; a click on a disabled button changes nothing. */
  function Apply(s: Wizard, e: Event): (r: Wizard)
    ensures r.paymentMethod == s.paymentMethod
    ensures r.paymentPlan != s.paymentPlan ==> e.ChoosePlan?
    ensures r.step != s.step ==> e.IsNavigation() || e.SubmitSucceeded?
    ensures r.selectedProgram != s.selectedProgram ==> e.SelectProgram? || e.SubmitSucceeded?
    ensures r.formData != s.formData ==> e.Edit? || e.SubmitSucceeded?
    ensures r.loading != s.loading ==> e.Submit? || e.SubmitSucceeded? || e.SubmitFailed?
  {
    match e
    case SelectProgram(v) => s.(selectedProgram := Some(v))
    case ContinueToPlan => if CanContinueToPlan(s) then s.(step := 2) else s
    case ChoosePlan(p) => s.(paymentPlan := p)
    case BackToProgram => s.(step := 1)
    case ContinueToDetails => s.(step := 3)
    case BackToPlan => s.(step := 2)
    case Edit(f, v) => s.(formData := SetField(s.formData, f, v))
    case Submit => if CanSubmit(s) then s.(loading := true) else s
    case SubmitSucceeded =>
      s.(step := 1, selectedProgram := None, formData := EmptyContact, loading := false)
    case SubmitFailed => s.(loading := false)
  }

  /** The body `handleSubmit` posts: `{...formData, program_type, payment_plan, payment_method}`. */
  datatype EnrollmentBody = EnrollmentBody(
    studentFullName: string,
    parentGuardianName: string,
    email: string,
    phone: string,
    address: string,
    programType: Option<string>,
    paymentPlan: string,
    paymentMethod: string)
  {
    /** The contact part of the merged body. */
    function Contact(): ContactDraft
    {
      ContactDraft(studentFullName, parentGuardianName, email, phone, address)
    }
  }

  function Payload(s: Wizard): (body: EnrollmentBody)
    ensures body.Contact() == s.formData
    ensures body.programType == s.selectedProgram
    ensures body.paymentPlan == s.paymentPlan && body.paymentMethod == s.paymentMethod
  {
    EnrollmentBody(s.formData.studentFullName, s.formData.parentGuardianName, s.formData.email,
                   s.formData.phone, s.formData.address, s.selectedProgram, s.paymentPlan,
                   s.paymentMethod)
  }

  /**
    What holds in every state the wizard can reach: the step is 1, 2 or 3;
    past step 1 a program is selected; a selection is one of the radio
    values; the plan is one of the two plan values; the payment method is
    still "card", because nothing ever calls `setPaymentMethod`.
   */
  predicate Inv(s: Wizard)
  {
    && 1 <= s.step <= 3
    && (s.step >= 2 ==> s.selectedProgram.Some?)
    && (s.selectedProgram.Some? ==> s.selectedProgram.value in ProgramOptionValues)
    && IsPlanOption(s.paymentPlan)
    && s.paymentMethod == "card"
  }

  lemma InitialSatisfiesInv()
    ensures Inv(Initial)
    ensures Initial.formData == EmptyContact && !Initial.loading
  {
  }

  lemma ApplyPreservesInv(s: Wizard, e: Event)
    requires Inv(s) && Available(s, e)
    ensures Inv(Apply(s, e))
  {
  }

  /** Whether every event of `es` finds its control available when it happens. */
  predicate Feasible(s: Wizard, es: seq<Event>)
    decreases |es|
  {
    |es| == 0 || (Available(s, es[0]) && Feasible(Apply(s, es[0]), es[1..]))
  }

  /** The state after the events `es`. */
  function Run(s: Wizard, es: seq<Event>): Wizard
    decreases |es|
  {
    if |es| == 0 then s else Run(Apply(s, es[0]), es[1..])
  }

  /** The invariant holds after any feasible sequence of events. */
  lemma {:induction false} RunPreservesInv(s: Wizard, es: seq<Event>)
    requires Inv(s) && Feasible(s, es)
    ensures Inv(Run(s, es))
    decreases |es|
  {
    if |es| > 0 {
      ApplyPreservesInv(s, es[0]);
      RunPreservesInv(Apply(s, es[0]), es[1..]);
    }
  }

  /** In every reachable state the payment method is "card" and the step is 1, 2 or 3. */
  lemma ReachableStates(es: seq<Event>)
    requires Feasible(Initial, es)
    ensures Run(Initial, es).paymentMethod == "card"
    ensures 1 <= Run(Initial, es).step <= 3
  {
    InitialSatisfiesInv();
    RunPreservesInv(Initial, es);
  }

  /** Step 1 moves forward exactly when a program is selected. */
  lemma ContinueToPlanNeedsSelection(s: Wizard)
    requires Inv(s) && s.step == 1
    ensures Apply(s, ContinueToPlan).step == 2 <==> s.selectedProgram.Some?
    ensures Apply(s, ContinueToPlan).step == 1 <==> s.selectedProgram.None?
  {
    if s.selectedProgram.Some? {
      assert s.selectedProgram.value != "";
    }
  }

  /**
    Each input handler sets the value it is given: a step-1 radio selects its
    program, a step-2 radio sets its plan, "Continue to Details" always goes
    from step 2 to step 3, and each Back button goes one step back.
   */
  lemma HandlersSetWhatTheyName(s: Wizard, v: string, p: string)
    ensures Apply(s, SelectProgram(v)).selectedProgram == Some(v)
    ensures Apply(s, ChoosePlan(p)).paymentPlan == p
    ensures s.step == 2 ==> Apply(s, ContinueToDetails).step == 3
    ensures Apply(s, BackToProgram).step == 1
    ensures Apply(s, BackToPlan).step == 2
  {
  }

  /**
    The plan radios drive the displayed price: in step 2 with Tech Teens
    (5000 a month, 12000 a quarter) selected, choosing "quarterly" shows
    12000 and choosing "monthly" again shows 5000.
   */
  lemma PlanRadiosSwitchPrice()
    ensures var p := ProgramJson("Tech Teens Professional", "Ages 13-15", "", 5000, 12000, [], "tech_teens");
            var s := Initial.(step := 2, selectedProgram := Some("tech_teens"));
            var q := Run(s, [ChoosePlan("quarterly")]);
            var m := Run(s, [ChoosePlan("quarterly"), ChoosePlan("monthly")]);
      && Feasible(s, [ChoosePlan("quarterly"), ChoosePlan("monthly")])
      && CalculateAmount([p], q.selectedProgram, q.paymentPlan) == 12000
      && CalculateAmount([p], m.selectedProgram, m.paymentPlan) == 5000
  {
    var p := ProgramJson("Tech Teens Professional", "Ages 13-15", "", 5000, 12000, [], "tech_teens");
    var es := [ChoosePlan("quarterly"), ChoosePlan("monthly")];
    assert es[1..][1..] == [];
    assert [ChoosePlan("quarterly")][1..] == [];
    assert IsFirstMatch([p], Some("tech_teens"), 0);
  }

  /** The four navigation buttons change `step` and nothing else. */
  lemma NavigationChangesOnlyStep(s: Wizard, e: Event)
    requires e.IsNavigation()
    ensures Apply(s, e).(step := s.step) == s
  {
  }

  /** Forward, back, forward again: the back step undoes the forward one exactly. */
  lemma ForwardBackForward(s: Wizard)
    requires Inv(s) && s.step == 1 && s.selectedProgram.Some?
    ensures Run(s, [ContinueToPlan, BackToProgram]) == s
    ensures Run(s, [ContinueToPlan, BackToProgram, ContinueToPlan]) == Apply(s, ContinueToPlan)
    ensures var t := Apply(s, ContinueToPlan);
            Run(t, [ContinueToDetails, BackToPlan]) == t
  {
    assert s.selectedProgram.value != "";
    var t := Apply(s, ContinueToPlan);
    assert Run(s, [ContinueToPlan, BackToProgram]) == Run(t, [BackToProgram]);
    assert Run(s, [ContinueToPlan, BackToProgram, ContinueToPlan])
        == Run(t, [BackToProgram, ContinueToPlan]);
    assert [BackToProgram, ContinueToPlan][1..] == [ContinueToPlan];
    assert [ContinueToDetails, BackToPlan][1..] == [BackToPlan];
  }

  /** `handleInputChange(field, v)` sets exactly that field of the draft. */
  lemma EditSetsOneField(s: Wizard, f: ContactField, v: string)
    ensures Apply(s, Edit(f, v)).formData.Get(f) == v
    ensures forall g :: g != f ==> Apply(s, Edit(f, v)).formData.Get(g) == s.formData.Get(g)
    ensures Apply(s, Edit(f, v)).(formData := s.formData) == s
  {
  }

  /**
    Submitting posts the current state's payload and sets `loading`; while
    a submission is in flight the button is disabled and a second submit
    does nothing.
   */
  lemma SubmitOnlyWhenIdle(s: Wizard)
    ensures CanSubmit(s) ==> !CanSubmit(Apply(s, Submit))
    ensures !s.loading ==> Apply(s, Submit) == s.(loading := true)
    ensures s.loading ==> Apply(s, Submit) == s
  {
  }

  /**
    A successful POST returns the wizard to step 1 with no program and an
    empty draft, and leaves the chosen plan and method as they were.
   */
  lemma SuccessResetsAllButPlan(s: Wizard)
    ensures var r := Apply(s, SubmitSucceeded);
      && r.step == 1 && r.selectedProgram.None? && r.formData == EmptyContact && !r.loading
      && r.paymentPlan == s.paymentPlan && r.paymentMethod == s.paymentMethod
  {
  }

  /** A failed POST only clears `loading`: step, selection, plan and draft stay. */
  lemma FailureKeepsDraft(s: Wizard)
    ensures Apply(s, SubmitFailed) == s.(loading := false)
  {
  }

  /**
    A concrete run in which the quarterly plan survives a successful
    enrollment: after the reset the wizard is not in its initial state.
   */
  lemma QuarterlyPlanSurvivesSuccess()
    ensures var es := [SelectProgram("smart_kids"), ContinueToPlan, ChoosePlan("quarterly"),
                       ContinueToDetails, Submit, SubmitSucceeded];
      Feasible(Initial, es) && Run(Initial, es) == Initial.(paymentPlan := "quarterly")
      && Run(Initial, es) != Initial
  {
    var es := [SelectProgram("smart_kids"), ContinueToPlan, ChoosePlan("quarterly"),
               ContinueToDetails, Submit, SubmitSucceeded];
    var s1 := Apply(Initial, es[0]);
    var s2 := Apply(s1, es[1]);
    var s3 := Apply(s2, es[2]);
    var s4 := Apply(s3, es[3]);
    var s5 := Apply(s4, es[4]);
    var s6 := Apply(s5, es[5]);
    assert s6 == Initial.(paymentPlan := "quarterly");
    assert Run(s6, es[6..]) == s6;
    assert Feasible(s6, es[6..]);
    assert es[5..][1..] == es[6..];
    assert es[4..][1..] == es[5..];
    assert es[3..][1..] == es[4..];
    assert es[2..][1..] == es[3..];
    assert es[1..][1..] == es[2..];
  }

  /** The wizard component; its fields mirror the React state, `programs` is the read-only prop. */
  class EnrollmentSection {
    const programs: seq<ProgramJson>
    var step: int
    var selectedProgram: Option<string>
    var paymentPlan: string
    var paymentMethod: string
    var loading: bool
    var formData: ContactDraft

    function State(): Wizard
      reads this
    {
      Wizard(step, selectedProgram, paymentPlan, paymentMethod, loading, formData)
    }

    predicate Valid()
      reads this
    {
      Inv(State())
    }

    constructor (programs: seq<ProgramJson>)
      ensures this.programs == programs
      ensures State() == Initial && Valid()
    {
      this.programs := programs;
      step := 1;
      selectedProgram := None;
      paymentPlan := "monthly";
      paymentMethod := "card";
      loading := false;
      formData := EmptyContact;
    }

    /** The price shown in step 2: `calculateAmount()` over the `programs` prop. */
    function DisplayedAmount(): (amount: int)
      reads this
      ensures amount == CalculateAmount(programs, selectedProgram, paymentPlan)
      ensures selectedProgram.None? ==> amount == 0
    {
      CalculateAmount(programs, selectedProgram, paymentPlan)
    }

    method SelectProgram(value: string)
      requires Valid() && Available(State(), Event.SelectProgram(value))
      modifies this
      ensures Valid() && State() == Apply(old(State()), Event.SelectProgram(value))
    {
      selectedProgram := Some(value);
    }

    method ContinueToPlan()
      requires Valid() && Available(State(), Event.ContinueToPlan)
      modifies this
      ensures Valid() && State() == Apply(old(State()), Event.ContinueToPlan)
    {
      if selectedProgram.Some? && selectedProgram.value != "" {
        step := 2;
      }
    }

    method ChoosePlan(plan: string)
      requires Valid() && Available(State(), Event.ChoosePlan(plan))
      modifies this
      ensures Valid() && State() == Apply(old(State()), Event.ChoosePlan(plan))
    {
      paymentPlan := plan;
    }

    method BackToProgram()
      requires Valid() && Available(State(), Event.BackToProgram)
      modifies this
      ensures Valid() && State() == Apply(old(State()), Event.BackToProgram)
    {
      step := 1;
    }

    method ContinueToDetails()
      requires Valid() && Available(State(), Event.ContinueToDetails)
      modifies this
      ensures Valid() && State() == Apply(old(State()), Event.ContinueToDetails)
    {
      step := 3;
    }

    method BackToPlan()
      requires Valid() && Available(State(), Event.BackToPlan)
      modifies this
      ensures Valid() && State() == Apply(old(State()), Event.BackToPlan)
    {
      step := 2;
    }

    method HandleInputChange(field: ContactField, value: string)
      requires Valid() && Available(State(), Edit(field, value))
      modifies this
      ensures Valid() && State() == Apply(old(State()), Edit(field, value))
    {
      formData := SetField(formData, field, value);
    }

    /** The submit half of `handleSubmit`: the body it posts, or None when the button is disabled. */
    method HandleSubmit() returns (body: Option<EnrollmentBody>)
      requires Valid() && Available(State(), Submit)
      modifies this
      ensures Valid() && State() == Apply(old(State()), Submit)
      ensures body == if old(loading) then None else Some(Payload(old(State())))
    {
      if loading {
        return None;
      }
      body := Some(EnrollmentBody(formData.studentFullName, formData.parentGuardianName,
                                  formData.email, formData.phone, formData.address,
                                  selectedProgram, paymentPlan, paymentMethod));
      loading := true;
    }

    /** The POST resolved: the `try` branch, then `finally`. */
    method SubmitSucceeded()
      requires Valid() && Available(State(), Event.SubmitSucceeded)
      modifies this
      ensures Valid() && State() == Apply(old(State()), Event.SubmitSucceeded)
    {
      step := 1;
      selectedProgram := None;
      formData := EmptyContact;
      loading := false;
    }

    /** The POST rejected: the `catch` branch, then `finally`. */
    method SubmitFailed()
      requires Valid() && Available(State(), Event.SubmitFailed)
      modifies this
      ensures Valid() && State() == Apply(old(State()), Event.SubmitFailed)
    {
      loading := false;
    }
  }
}
