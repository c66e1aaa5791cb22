/**
  The HTTP boundary between the page and backend/server.py: how the
  backend's responses look to the frontend, how the bodies the two forms
  post are validated into the backend's request models, and what the two
  sides agree on. Only the enum validation of the request models is
  modelled; `EmailStr` checking is not.
 */
module Api {
  import opened Wrappers
  import opened JsValues
  import Server
  import EnrollmentUi
  import ConsultationUi
  import ProgramsUi
  import StatsUi
  import HeroUi

  /** A program as serialised by GET /api/programs. */
  function ProgramToJson(p: Server.Program): (j: ProgramJson)
    ensures j.name == p.name && j.ageRange == p.ageRange && j.description == p.description
    ensures j.monthlyPrice == p.monthlyPrice && j.quarterlyPrice == p.quarterlyPrice
    ensures j.features == p.features
    ensures Server.ParseProgramType(j.programType) == Some(p.programType)
  {
    ProgramJson(p.name, p.ageRange, p.description, p.monthlyPrice, p.quarterlyPrice,
                p.features, p.programType.Value())
  }

  function ProgramsToJson(ps: seq<Server.Program>): (js: seq<ProgramJson>)
    ensures |js| == |ps|
    ensures forall i :: 0 <= i < |ps| ==> js[i] == ProgramToJson(ps[i])
  {
    seq(|ps|, i requires 0 <= i < |ps| => ProgramToJson(ps[i]))
  }

  /** The `programs` prop the page passes down after a successful fetch. */
  function CatalogueJson(): seq<ProgramJson>
  {
    ProgramsToJson(Server.ProgramsData())
  }

  /** The `stats` prop the page passes down after a successful fetch. */
  function StatsToJson(s: Server.StatsResponse): (j: StatsJson)
    requires -9_007_199_254_740_991 <= s.expertEducators <= 9_007_199_254_740_991
    ensures j.totalStudents == Some(s.totalStudents) && j.successRate == Some(s.successRate)
    ensures j.expertEducators.Some? && j.expertEducators.value == s.expertEducators
    ensures j.supportHours == Some(s.supportHours)
    ensures TruthyString(j.successRate) <==> s.successRate != ""
    ensures TruthyNumber(j.expertEducators) <==> s.expertEducators != 0
    ensures TruthyString(j.supportHours) <==> s.supportHours != ""
  {
    StatsJson(Some(s.totalStudents), Some(s.successRate), Some(s.expertEducators), Some(s.supportHours))
  }

  /** Distinct enum members have distinct string values. */
  lemma ProgramTypeValueIsInjective(t: Server.ProgramType, u: Server.ProgramType)
    ensures t.Value() == u.Value() ==> t == u
  {
  }

  /** Validation of the enrollment body into `EnrollmentCreate`; None is a 422 response. */
  function DecodeEnrollment(b: EnrollmentUi.EnrollmentBody): (r: Option<Server.EnrollmentCreate>)
    ensures r.Some? ==>
      && b.programType == Some(r.value.programType.Value())
      && r.value.paymentPlan.Value() == b.paymentPlan
      && r.value.paymentMethod.Value() == b.paymentMethod
      && EnrollmentUi.ContactDraft(r.value.studentFullName, r.value.parentGuardianName,
                                   r.value.email, r.value.phone, r.value.address) == b.Contact()
    ensures r.None? ==>
      || b.programType.None?
      || (forall t: Server.ProgramType :: t.Value() != b.programType.value)
      || (forall p: Server.PaymentPlan :: p.Value() != b.paymentPlan)
      || (forall m: Server.PaymentMethod :: m.Value() != b.paymentMethod)
  {
    if b.programType.None? then None
    else
      match (Server.ParseProgramType(b.programType.value), Server.ParsePaymentPlan(b.paymentPlan),
             Server.ParsePaymentMethod(b.paymentMethod))
      case (Some(t), Some(p), Some(m)) =>
        Some(Server.EnrollmentCreate(b.studentFullName, b.parentGuardianName, b.email, b.phone,
                                     b.address, t, p, m))
      case _ => None
  }

  /**
    Validation of the consultation body into `ConsultationCreate`. The form
    always sends `phone` as a string, so the optional field is never absent.
   */
  function DecodeConsultation(b: ConsultationUi.ConsultationDraft): (r: Option<Server.ConsultationCreate>)
    ensures r.Some? ==>
      && r.value.childAgeGroup.Value() == b.childAgeGroup
      && r.value.phone == Some(b.phone)
      && r.value.fullName == b.fullName && r.value.email == b.email
      && r.value.learningGoals == b.learningGoals
    ensures r.None? ==> forall t: Server.ProgramType :: t.Value() != b.childAgeGroup
  {
    match Server.ParseProgramType(b.childAgeGroup)
    case Some(t) => Some(Server.ConsultationCreate(b.fullName, b.email, Some(b.phone), t, b.learningGoals))
    case None => None
  }

  /** The frontend's `find` on the serialised table picks the entry the backend's loop picks. */
  lemma FindAgreesWithBackend(table: seq<Server.Program>, t: Server.ProgramType)
    ensures EnrollmentUi.SelectedProgramDetails(ProgramsToJson(table), Some(t.Value()))
         == match Server.FirstIndexOf(table, t)
            case None => None
            case Some(i) => Some(ProgramToJson(table[i]))
  {
    var js := ProgramsToJson(table);
    var sel := Some(t.Value());
    forall j | 0 <= j < |table|
      ensures EnrollmentUi.Matches(js[j], sel) <==> table[j].programType == t
    {
      ProgramTypeValueIsInjective(table[j].programType, t);
    }
    var found := EnrollmentUi.SelectedProgramDetails(js, sel);
    match Server.FirstIndexOf(table, t)
    case None =>
    case Some(k) =>
      assert EnrollmentUi.IsFirstMatch(js, sel, k);
      var i :| EnrollmentUi.IsFirstMatch(js, sel, i) && js[i] == found.value;
      EnrollmentUi.FirstMatchIsUnique(js, sel, i, k);
  }

  /**
    Given the backend's table as its `programs`, the price the wizard shows
    is the amount the backend charges: 0 only where the backend answers 404.
   */
  lemma PriceAgreesWithBackend(table: seq<Server.Program>, t: Server.ProgramType, plan: Server.PaymentPlan)
    ensures EnrollmentUi.CalculateAmount(ProgramsToJson(table), Some(t.Value()), plan.Value())
         == match Server.FirstIndexOf(table, t)
            case None => 0
            case Some(i) => Server.Charge(table[i], plan)
  {
    var js := ProgramsToJson(table);
    var sel := Some(t.Value());
    FindAgreesWithBackend(table, t);
    match Server.FirstIndexOf(table, t)
    case None =>
      assert EnrollmentUi.SelectedProgramDetails(js, sel).None?;
    case Some(k) =>
      assert js[k] == ProgramToJson(table[k]);
      var i :| EnrollmentUi.IsFirstMatch(js, sel, i) && js[i] == ProgramToJson(table[k]);
      assert js[i].quarterlyPrice == table[k].quarterlyPrice;
      assert js[i].monthlyPrice == table[k].monthlyPrice;
  }

  /** The ordering of the two frontend pick lists is the backend enum's. */
  lemma FrontendChoicesFollowTheEnum()
    ensures |ConsultationUi.AgeGroupValues| == |Server.AllProgramTypes|
    ensures forall i :: 0 <= i < |Server.AllProgramTypes| ==>
      ConsultationUi.AgeGroupValues[i] == Server.AllProgramTypes[i].Value()
    ensures EnrollmentUi.ProgramOptionValues == ConsultationUi.AgeGroupValues
  {
  }

  /**
    Every enrollment the wizard can post from a reachable state is accepted
    by validation, names an existing program, pays by card, and is charged
    exactly what step 2 displayed when the page was given the catalogue.
   */
  lemma SubmittedEnrollmentIsAccepted(s: EnrollmentUi.Wizard)
    requires EnrollmentUi.Inv(s) && s.step == 3
    ensures var r := DecodeEnrollment(EnrollmentUi.Payload(s));
      && r.Some?
      && r.value.paymentMethod == Server.Card
      && Some(r.value.programType.Value()) == s.selectedProgram
      && r.value.paymentPlan.Value() == s.paymentPlan
      && Server.FirstIndexOf(Server.ProgramsData(), r.value.programType) == Some(r.value.programType.Ordinal())
      && Server.Charge(Server.ProgramsData()[r.value.programType.Ordinal()], r.value.paymentPlan)
         == EnrollmentUi.CalculateAmount(CatalogueJson(), s.selectedProgram, s.paymentPlan)
  {
    var b := EnrollmentUi.Payload(s);
    var v := s.selectedProgram.value;
    assert Server.ParseProgramType(v).Some?;
    assert Server.ParsePaymentPlan(s.paymentPlan).Some?;
    assert Server.ParsePaymentMethod(s.paymentMethod) == Some(Server.Card);
    var r := DecodeEnrollment(b);
    var t := r.value.programType;
    Server.CatalogueListsEveryType(t);
    PriceAgreesWithBackend(Server.ProgramsData(), t, r.value.paymentPlan);
  }

  /**
    Every consultation the form can post is accepted by validation and
    stored as a pending request whose phone is the draft's string, "" when
    the user left it blank, and never absent.
   */
  lemma SubmittedConsultationIsAccepted(f: ConsultationUi.Form)
    requires ConsultationUi.Inv(f) && ConsultationUi.SubmitEnabled(f)
    ensures var r := DecodeConsultation(f.draft);
      && r.Some?
      && Server.CreateConsultationRequest(r.value).phone == Some(f.draft.phone)
      && Server.CreateConsultationRequest(r.value).status == "pending"
      && Server.CreateConsultationRequest(r.value).childAgeGroup.Value() == f.draft.childAgeGroup
  {
    assert f.draft.childAgeGroup in ConsultationUi.AgeGroupValues;
    assert Server.ParseProgramType(f.draft.childAgeGroup).Some?;
  }

  /** The catalogue's cards all show a negative saving of half a month, i.e. -17%, and the popular one is Smart Kids. */
  lemma CatalogueCardsShowALoss()
    ensures var cards := ProgramsUi.Cards(CatalogueJson());
      && |cards| == 5
      && (forall i :: 0 <= i < 5 ==> cards[i].savings < 0 && cards[i].savingsPercent == Some(-17))
      && cards[2].mostPopular && cards[2].program.name == "Smart Kids Mastery"
  {
    var cards := ProgramsUi.Cards(CatalogueJson());
    forall i | 0 <= i < 5
      ensures cards[i].savings < 0 && cards[i].savingsPercent == Some(-17)
    {
      ProgramsUi.HalfMonthLoss(CatalogueJson()[i]);
    }
  }

  /**
    With the backend's stats every card and banner figure takes the fetched
    branch; the student total is the locale form of 10000 plus the
    enrollments, the educators show "25+" in the cards and the banner alike.
   */
  lemma ServerStatsShowFetchedValues(totalEnrollments: nat, totalConsultations: nat, localeString: int -> string)
    requires localeString(10000 + totalEnrollments) != ""
    ensures var stats := StatsToJson(Server.PlatformStats(totalEnrollments, totalConsultations));
      && stats.totalStudents == Some(10000 + totalEnrollments)
      && TruthyString(stats.successRate) && TruthyNumber(stats.expertEducators)
      && TruthyString(stats.supportHours)
      && StatsUi.StatItems(stats, localeString)[0].value == localeString(10000 + totalEnrollments)
      && StatsUi.StatItems(stats, localeString)[1].value == "99%"
      && StatsUi.StatItems(stats, localeString)[2].value == "25+"
      && StatsUi.StatItems(stats, localeString)[3].value == "24/7"
      && HeroUi.HeroFigures(stats, localeString)
         == [localeString(10000 + totalEnrollments), "99%", "25+", "24/7"]
  {
    assert Digits(2) == "2" && Digits(5) == "5";
    assert Digits(25) == Digits(2) + ['5'];
    assert NumberToString(25) == "25";
  }
}
