/**
  The consultation request form (frontend/src/components/ConsultationSection.jsx):
  a flat five-field draft, a per-field update, the submit button's enabled
  condition and the reset-on-success, keep-on-failure rule. Same shape as
  the enrollment wizard: a state record, events, `Apply`, and a class whose
  methods follow `Apply`.
 */
module ConsultationUi {
  import opened Wrappers

  datatype ConsultationField = FullName | Email | Phone | ChildAgeGroup | LearningGoals

  /** The `formData` draft; it is also, verbatim, the body of the POST. */
  datatype ConsultationDraft = ConsultationDraft(
    fullName: string,
    email: string,
    phone: string,
    childAgeGroup: string,
    learningGoals: string)
  {
    function Get(f: ConsultationField): string
    {
      match f
      case FullName => fullName
      case Email => email
      case Phone => phone
      case ChildAgeGroup => childAgeGroup
      case LearningGoals => learningGoals
    }
  }

  const EmptyDraft := ConsultationDraft("", "", "", "", "")

  /** The values of the age-group select, in display order. */
  const AgeGroupValues: seq<string> :=
    ["little_learners", "young_explorers", "smart_kids", "tech_teens", "future_leaders"]

  /** `handleInputChange`: set one field, keep the other four. */
  function SetField(d: ConsultationDraft, f: ConsultationField, v: string): (r: ConsultationDraft)
    ensures r.Get(f) == v
    ensures forall g :: g != f ==> r.Get(g) == d.Get(g)
  {
    match f
    case FullName => d.(fullName := v)
    case Email => d.(email := v)
    case Phone => d.(phone := v)
    case ChildAgeGroup => d.(childAgeGroup := v)
    case LearningGoals => d.(learningGoals := v)
  }

  /** The component's state: `formData` and `loading`. */
  datatype Form = Form(draft: ConsultationDraft, loading: bool)

  const Initial := Form(EmptyDraft, false)

  /**
    The submit button's condition: it is disabled while loading and while
    any of the four required fields is empty; `phone` plays no part.
   */
  predicate SubmitEnabled(f: Form)
    ensures SubmitEnabled(f) <==> !f.loading && forall g :: g != Phone ==> f.draft.Get(g) != ""
  {
    assert f.draft.Get(FullName) == f.draft.fullName && f.draft.Get(Email) == f.draft.email;
    assert f.draft.Get(ChildAgeGroup) == f.draft.childAgeGroup;
    assert f.draft.Get(LearningGoals) == f.draft.learningGoals;
    !(f.loading || f.draft.fullName == "" || f.draft.email == ""
      || f.draft.childAgeGroup == "" || f.draft.learningGoals == "")
  }

  datatype Event =
    | Edit(field: ConsultationField, text: string)
    | Submit
    | SubmitSucceeded
    | SubmitFailed

  /** The age-group select offers only its five values; the outcomes need a POST in flight. */
  predicate Available(f: Form, e: Event)
  {
    match e
    case Edit(field, v) => field == ChildAgeGroup ==> v in AgeGroupValues
    case Submit => true
    case SubmitSucceeded => f.loading
    case SubmitFailed => f.loading
  }

  /** What each handler does; submitting through a disabled button changes nothing. */
  function Apply(f: Form, e: Event): (r: Form)
    ensures r.draft != f.draft ==> e.Edit? || e.SubmitSucceeded?
    ensures r.loading != f.loading ==> !e.Edit?
    ensures e.Submit? ==> r.draft == f.draft && (r.loading <==> f.loading || SubmitEnabled(f))
    ensures e.SubmitSucceeded? || e.SubmitFailed? ==> !r.loading
  {
    match e
    case Edit(field, v) => f.(draft := SetField(f.draft, field, v))
    case Submit => if SubmitEnabled(f) then f.(loading := true) else f
    case SubmitSucceeded => Form(EmptyDraft, false)
    case SubmitFailed => f.(loading := false)
  }

  /** The age group is unset or one of the select's values. */
  predicate Inv(f: Form)
  {
    f.draft.childAgeGroup == "" || f.draft.childAgeGroup in AgeGroupValues
  }

  lemma ApplyPreservesInv(f: Form, e: Event)
    requires Inv(f) && Available(f, e)
    ensures Inv(Apply(f, e))
  {
  }

  predicate Feasible(f: Form, es: seq<Event>)
    decreases |es|
  {
    |es| == 0 || (Available(f, es[0]) && Feasible(Apply(f, es[0]), es[1..]))
  }

  function Run(f: Form, es: seq<Event>): Form
    decreases |es|
  {
    if |es| == 0 then f else Run(Apply(f, es[0]), es[1..])
  }

  lemma {:induction false} RunPreservesInv(f: Form, es: seq<Event>)
    requires Inv(f) && Feasible(f, es)
    ensures Inv(Run(f, es))
    decreases |es|
  {
    if |es| > 0 {
      ApplyPreservesInv(f, es[0]);
      RunPreservesInv(Apply(f, es[0]), es[1..]);
    }
  }

  /** `handleInputChange(field, v)` sets exactly that field of the draft and leaves `loading` alone. */
  lemma EditSetsOneField(f: Form, g: ConsultationField, v: string)
    ensures Apply(f, Edit(g, v)).draft.Get(g) == v
    ensures forall h :: h != g ==> Apply(f, Edit(g, v)).draft.Get(h) == f.draft.Get(h)
    ensures Apply(f, Edit(g, v)).loading == f.loading
  {
  }

  /** The initial draft is all empty and not loading, so the button starts disabled. */
  lemma InitialIsEmpty()
    ensures forall g :: Initial.draft.Get(g) == ""
    ensures !Initial.loading && Inv(Initial) && !SubmitEnabled(Initial)
  {
  }

  /** Any empty required field disables the button. */
  lemma EmptyRequiredFieldDisables(f: Form, g: ConsultationField)
    requires g != Phone && f.draft.Get(g) == ""
    ensures !SubmitEnabled(f)
  {
  }

  /** With the four required fields filled and nothing in flight, the button is enabled, whatever the phone. */
  lemma RequiredFieldsEnable(f: Form)
    requires !f.loading
    requires forall g :: g != Phone ==> f.draft.Get(g) != ""
    ensures SubmitEnabled(f)
  {
    assert f.draft.Get(FullName) != "" && f.draft.Get(Email) != "";
    assert f.draft.Get(ChildAgeGroup) != "" && f.draft.Get(LearningGoals) != "";
  }

  /** Editing the phone never changes whether submission is enabled. */
  lemma PhoneNeverMatters(f: Form, v: string)
    ensures SubmitEnabled(Apply(f, Edit(Phone, v))) == SubmitEnabled(f)
  {
  }

  /** Success empties all five fields; failure keeps the draft; both end the loading state. */
  lemma SubmitOutcomes(f: Form)
    ensures Apply(f, SubmitSucceeded).draft == EmptyDraft
    ensures Apply(f, SubmitFailed).draft == f.draft
    ensures !Apply(f, SubmitSucceeded).loading && !Apply(f, SubmitFailed).loading
  {
  }

  /**
    A populated draft, a submit and a failed POST: the fields stay
    populated and the form is no longer loading, so it can be resubmitted.
   */
  lemma FailedSubmitCanBeRetried(f: Form)
    requires SubmitEnabled(f)
    ensures var g := Run(f, [Submit, SubmitFailed]);
      Feasible(f, [Submit, SubmitFailed]) && g == f && SubmitEnabled(g)
  {
    var es := [Submit, SubmitFailed];
    assert es[1..] == [SubmitFailed];
    assert es[1..][1..] == [];
  }

  /** The component; its fields mirror the React state. */
  class ConsultationSection {
    var formData: ConsultationDraft
    var loading: bool

    function State(): Form
      reads this
    {
      Form(formData, loading)
    }

    predicate Valid()
      reads this
    {
      Inv(State())
    }

    constructor ()
      ensures State() == Initial && Valid()
    {
      formData := EmptyDraft;
      loading := false;
    }

    method HandleInputChange(field: ConsultationField, value: string)
      requires Valid() && Available(State(), Edit(field, value))
      modifies this
      ensures Valid() && State() == Apply(old(State()), Edit(field, value))
    {
      formData := SetField(formData, field, value);
    }

    /** The submit half of `handleSubmit`: the draft it posts, or None when the button is disabled. */
    method HandleSubmit() returns (body: Option<ConsultationDraft>)
      requires Valid()
      modifies this
      ensures Valid() && State() == Apply(old(State()), Submit)
      ensures body == if SubmitEnabled(old(State())) then Some(old(formData)) else None
    {
      if loading || formData.fullName == "" || formData.email == ""
        || formData.childAgeGroup == "" || formData.learningGoals == "" {
        return None;
      }
      body := Some(formData);
      loading := true;
    }

    method SubmitSucceeded()
      requires Valid() && loading
      modifies this
      ensures Valid() && State() == Apply(old(State()), Event.SubmitSucceeded)
    {
      formData := EmptyDraft;
      loading := false;
    }

    method SubmitFailed()
      requires Valid() && loading
      modifies this
      ensures Valid() && State() == Apply(old(State()), Event.SubmitFailed)
    {
      loading := false;
    }
  }
}
