/**
  The backend API (backend/server.py): the enumerations, the fixed program
  catalogue, lookup by program type, the enrollment amount rule, the records
  the two POST endpoints build and the statistics endpoint. Database access
  is left out: the counts the statistics endpoint reads are parameters.
 */
module Server {
  import opened Wrappers

  /** The five age-bracketed programs, in the enum's declaration order. */
  datatype ProgramType = LittleLearners | YoungExplorers | SmartKids | TechTeens | FutureLeaders
  {
    /** The member's string value, which is what travels in JSON. */
    function Value(): string
    {
      match this
      case LittleLearners => "little_learners"
      case YoungExplorers => "young_explorers"
      case SmartKids => "smart_kids"
      case TechTeens => "tech_teens"
      case FutureLeaders => "future_leaders"
    }

    /** The member's position in the enum declaration. */
    function Ordinal(): nat
    {
      match this
      case LittleLearners => 0
      case YoungExplorers => 1
      case SmartKids => 2
      case TechTeens => 3
      case FutureLeaders => 4
    }
  }

  const AllProgramTypes: seq<ProgramType> :=
    [LittleLearners, YoungExplorers, SmartKids, TechTeens, FutureLeaders]

  datatype PaymentPlan = Monthly | Quarterly
  {
    function Value(): string
    {
      match this
      case Monthly => "monthly"
      case Quarterly => "quarterly"
    }
  }

  datatype PaymentMethod = Card | BankTransfer | EzCash
  {
    function Value(): string
    {
      match this
      case Card => "card"
      case BankTransfer => "bank_transfer"
      case EzCash => "ez_cash"
    }
  }

  /** Request validation of a `str` enum: the member whose value is `s`, if any. */
  function ParseProgramType(s: string): (r: Option<ProgramType>)
    ensures r.Some? ==> r.value.Value() == s
    ensures r.None? ==> forall t: ProgramType :: t.Value() != s
  {
    if s == "little_learners" then Some(LittleLearners)
    else if s == "young_explorers" then Some(YoungExplorers)
    else if s == "smart_kids" then Some(SmartKids)
    else if s == "tech_teens" then Some(TechTeens)
    else if s == "future_leaders" then Some(FutureLeaders)
    else None
  }

  function ParsePaymentPlan(s: string): (r: Option<PaymentPlan>)
    ensures r.Some? ==> r.value.Value() == s
    ensures r.None? ==> forall p: PaymentPlan :: p.Value() != s
  {
    if s == "monthly" then Some(Monthly)
    else if s == "quarterly" then Some(Quarterly)
    else None
  }

  function ParsePaymentMethod(s: string): (r: Option<PaymentMethod>)
    ensures r.Some? ==> r.value.Value() == s
    ensures r.None? ==> forall m: PaymentMethod :: m.Value() != s
  {
    if s == "card" then Some(Card)
    else if s == "bank_transfer" then Some(BankTransfer)
    else if s == "ez_cash" then Some(EzCash)
    else None
  }

  /** The enum order lists every member exactly once, at its ordinal. */
  lemma AllProgramTypesIsTheEnum()
    ensures |AllProgramTypes| == 5
    ensures forall t: ProgramType :: t.Ordinal() < 5 && AllProgramTypes[t.Ordinal()] == t
    ensures forall i, j :: 0 <= i < j < |AllProgramTypes| ==> AllProgramTypes[i] != AllProgramTypes[j]
  {
  }

  /** A program offering; `id`, a fresh UUID per response, is not modelled. */
  datatype Program = Program(
    name: string,
    ageRange: string,
    description: string,
    monthlyPrice: int,
    quarterlyPrice: int,
    features: seq<string>,
    programType: ProgramType)

  /**
    The fixed catalogue. One entry per program type, in enum order, and in
    every entry a quarter costs three and a half months.
   */
  function ProgramsData(): (table: seq<Program>)
    ensures |table| == |AllProgramTypes|
    ensures forall i :: 0 <= i < |table| ==> table[i].programType == AllProgramTypes[i]
    ensures forall i :: 0 <= i < |table| ==>
      0 < table[i].monthlyPrice && 2 * table[i].quarterlyPrice == 7 * table[i].monthlyPrice
  {
    [ Program("Little Learners Foundation", "Ages 4-6", "Foundation Excellence", 800, 2800,
        ["Advanced Number & Letter Mastery", "Interactive Color & Shape Theory",
         "Foundation Logical Thinking", "Gamified Learning Adventures", "Expert Parent Coaching",
         "Premium Physical Workbooks", "Progress Analytics Dashboard"],
        LittleLearners),
      Program("Young Explorers Discovery", "Ages 7-9", "Discovery Excellence", 1200, 4200,
        ["Advanced Mathematics & Statistics", "Virtual Science Laboratory",
         "Critical Reading & Analysis", "Intermediate Logical Thinking", "Digital Art & Design",
         "AI-Powered Progress Tracking", "Peer Learning Networks"],
        YoungExplorers),
      Program("Smart Kids Mastery", "Ages 10-12", "Mastery Excellence", 1500, 5250,
        ["Higher Mathematics & Calculus Prep", "Professional Coding Fundamentals",
         "Real-World STEM Projects", "Advanced Logical Reasoning", "Algorithmic Thinking Mastery",
         "Critical Problem-Solving", "Mentor-Guided Learning"],
        SmartKids),
      Program("Tech Teens Professional", "Ages 13-15", "Professional Excellence", 2000, 7000,
        ["Professional Programming Languages", "Full-Stack Web Development",
         "Mobile App Development", "Advanced Algorithmic Design", "Industry-Level Projects",
         "Tech Career Preparation", "1-on-1 Industry Mentorship"],
        TechTeens),
      Program("Future Leaders Mastery", "Ages 16-18", "Leadership Excellence", 2500, 8750,
        ["AI & Machine Learning Mastery", "Enterprise App Development", "Advanced Data Science",
         "Complex Algorithmic Systems", "Leadership & Entrepreneurship",
         "Global Career Preparation", "Executive Mentorship Program"],
        FutureLeaders) ]
  }

  /** The index of the first entry of `table` whose program type is `t`. */
  function FirstIndexOf(table: seq<Program>, t: ProgramType): (r: Option<nat>)
    ensures r.None? <==> forall i :: 0 <= i < |table| ==> table[i].programType != t
    ensures r.Some? ==>
      r.value < |table| && table[r.value].programType == t &&
      forall j :: 0 <= j < r.value ==> table[j].programType != t
  {
    if |table| == 0 then None
    else if table[0].programType == t then Some(0)
    else
      match FirstIndexOf(table[1..], t)
      case None => None
      case Some(k) =>
        assert forall j :: 1 <= j < k + 1 ==> table[j] == table[1..][j - 1];
        Some(k + 1)
  }

  /** Every program type is found in the catalogue, at its enum ordinal. */
  lemma CatalogueListsEveryType(t: ProgramType)
    ensures FirstIndexOf(ProgramsData(), t) == Some(t.Ordinal())
  {
    var table := ProgramsData();
    AllProgramTypesIsTheEnum();
    var r := FirstIndexOf(table, t);
    assert table[t.Ordinal()].programType == t;
    assert r.Some?;
    assert AllProgramTypes[r.value] == t == AllProgramTypes[t.Ordinal()];
  }

  /** The error an endpoint raises: an HTTP status and its detail text. */
  datatype HttpError = HttpError(statusCode: int, detail: string)

  const ProgramNotFound := HttpError(404, "Program not found")

  /** GET /api/programs: the catalogue entries, built one by one in table order. */
  method GetPrograms() returns (programs: seq<Program>)
    ensures programs == ProgramsData()
  {
    var table := ProgramsData();
    programs := [];
    for i := 0 to |table|
      invariant programs == table[..i]
    {
      programs := programs + [table[i]];
    }
  }

  /**
    The search loop of GET /api/programs/{program_type} over a table: the
    first entry of the requested type, or 404.
   */
  method GetProgramFrom(table: seq<Program>, programType: ProgramType) returns (r: Result<Program, HttpError>)
    ensures match FirstIndexOf(table, programType)
            case Some(i) => r == Success(table[i])
            case None => r == Failure(ProgramNotFound)
  {
    var i := 0;
    while i < |table|
      invariant 0 <= i <= |table|
      invariant forall j :: 0 <= j < i ==> table[j].programType != programType
    {
      if table[i].programType == programType {
        return Success(table[i]);
      }
      i := i + 1;
    }
    return Failure(ProgramNotFound);
  }

  /** GET /api/programs/{program_type}: the search over the catalogue. */
  method GetProgram(programType: ProgramType) returns (r: Result<Program, HttpError>)
    ensures match FirstIndexOf(ProgramsData(), programType)
            case Some(i) => r == Success(ProgramsData()[i])
            case None => r == Failure(ProgramNotFound)
  {
    r := GetProgramFrom(ProgramsData(), programType);
  }

  /** The validated body of POST /api/enrollment. */
  datatype EnrollmentCreate = EnrollmentCreate(
    studentFullName: string,
    parentGuardianName: string,
    email: string,
    phone: string,
    address: string,
    programType: ProgramType,
    paymentPlan: PaymentPlan,
    paymentMethod: PaymentMethod)

  /** A stored enrollment; `id` and `enrollment_date` are not modelled. */
  datatype Enrollment = Enrollment(
    studentFullName: string,
    parentGuardianName: string,
    email: string,
    phone: string,
    address: string,
    programType: ProgramType,
    paymentPlan: PaymentPlan,
    paymentMethod: PaymentMethod,
    amount: int,
    status: string)
  {
    /** The input fields the record was built from. */
    function Request(): EnrollmentCreate
    {
      EnrollmentCreate(studentFullName, parentGuardianName, email, phone, address,
                       programType, paymentPlan, paymentMethod)
    }
  }

  /** The price charged for one program under a plan: the quarterly price for "quarterly", the monthly one otherwise. */
  function Charge(program: Program, plan: PaymentPlan): (amount: int)
    ensures plan.Value() == "quarterly" ==> amount == program.quarterlyPrice
    ensures plan.Value() != "quarterly" ==> amount == program.monthlyPrice
  {
    if plan == Quarterly then program.quarterlyPrice else program.monthlyPrice
  }

  /**
    The body of POST /api/enrollment over a table: find the first entry of
    the requested type (404 if there is none), charge its quarterly price
    for the quarterly plan and its monthly price otherwise, and build a
    pending record carrying every input field.
   */
  method CreateEnrollmentFrom(table: seq<Program>, data: EnrollmentCreate) returns (r: Result<Enrollment, HttpError>)
    ensures match FirstIndexOf(table, data.programType)
            case None => r == Failure(ProgramNotFound)
            case Some(i) =>
              && r.Success?
              && r.value.Request() == data
              && r.value.status == "pending"
              && r.value.amount == Charge(table[i], data.paymentPlan)
  {
    var program: Option<Program> := None;
    var i := 0;
    while i < |table|
      invariant 0 <= i <= |table|
      invariant program == None
      invariant forall j :: 0 <= j < i ==> table[j].programType != data.programType
    {
      if table[i].programType == data.programType {
        program := Some(table[i]);
        break;
      }
      i := i + 1;
    }
    if program.None? {
      return Failure(ProgramNotFound);
    }
    assert FirstIndexOf(table, data.programType) == Some(i);
    var amount := Charge(program.value, data.paymentPlan);
    r := Success(Enrollment(data.studentFullName, data.parentGuardianName, data.email,
                            data.phone, data.address, data.programType, data.paymentPlan,
                            data.paymentMethod, amount, "pending"));
  }

  /** POST /api/enrollment: the enrollment over the catalogue. */
  method CreateEnrollment(data: EnrollmentCreate) returns (r: Result<Enrollment, HttpError>)
    ensures match FirstIndexOf(ProgramsData(), data.programType)
            case None => r == Failure(ProgramNotFound)
            case Some(i) =>
              && r.Success?
              && r.value.Request() == data
              && r.value.status == "pending"
              && r.value.amount == Charge(ProgramsData()[i], data.paymentPlan)
  {
    r := CreateEnrollmentFrom(ProgramsData(), data);
  }

  /** The validated body of POST /api/consultation; `phone` may be absent. */
  datatype ConsultationCreate = ConsultationCreate(
    fullName: string,
    email: string,
    phone: Option<string>,
    childAgeGroup: ProgramType,
    learningGoals: string)

  /** A stored consultation request; `id` and `request_date` are not modelled. */
  datatype ConsultationRequest = ConsultationRequest(
    fullName: string,
    email: string,
    phone: Option<string>,
    childAgeGroup: ProgramType,
    learningGoals: string,
    status: string)
  {
    function Request(): ConsultationCreate
    {
      ConsultationCreate(fullName, email, phone, childAgeGroup, learningGoals)
    }
  }

  /** POST /api/consultation: a pending record carrying every input field unchanged. */
  function CreateConsultationRequest(data: ConsultationCreate): (r: ConsultationRequest)
    ensures r.Request() == data
    ensures r.status == "pending"
  {
    ConsultationRequest(data.fullName, data.email, data.phone, data.childAgeGroup,
                        data.learningGoals, "pending")
  }

  /** The body of GET /api/stats. */
  datatype StatsResponse = StatsResponse(
    totalStudents: int,
    successRate: string,
    expertEducators: int,
    supportHours: string,
    totalEnrollments: nat,
    totalConsultations: nat)

  /**
    GET /api/stats, given the two collection counts: the student total is a
    base of 10000 plus the enrollments, the other three figures are fixed,
    and both counts are echoed.
   */
  function PlatformStats(totalEnrollments: nat, totalConsultations: nat): (r: StatsResponse)
    ensures r.totalStudents == 10000 + r.totalEnrollments
    ensures r.totalEnrollments == totalEnrollments && r.totalConsultations == totalConsultations
    ensures r.successRate == "99%" && r.expertEducators == 25 && r.supportHours == "24/7"
  {
    StatsResponse(10000 + totalEnrollments, "99%", 25, "24/7", totalEnrollments, totalConsultations)
  }

  /** Every catalogue entry costs more per quarter than three months bought separately. */
  lemma QuarterCostsMoreThanThreeMonths(i: nat)
    requires i < |ProgramsData()|
    ensures ProgramsData()[i].quarterlyPrice > 3 * ProgramsData()[i].monthlyPrice
  {
  }

  /** The backend test's enrollment (smart_kids on the monthly plan) is charged 1500. */
  lemma SmartKidsMonthlyIsCharged1500()
    ensures FirstIndexOf(ProgramsData(), SmartKids) == Some(2)
    ensures Charge(ProgramsData()[2], Monthly) == 1500
  {
    CatalogueListsEveryType(SmartKids);
  }
}
