/** Request and row shapes of `app/models.py`: the string enums with their wire
    values, the calendar date, and the field constraints that request validation
    enforces before any endpoint body runs. */
module Models {
  import opened Errors

  // ---------------------------------------------------------------- enums

  datatype UserRole = Admin | Patient {
    function Value(): string {
      match this
      case Admin => "ADMIN"
      case Patient => "PATIENT"
    }
  }

  datatype Gender = Male | Female {
    function Value(): string {
      match this
      case Male => "Male"
      case Female => "Female"
    }
  }

  datatype RiskLevel = Low | Medium | High {
    function Value(): string {
      match this
      case Low => "Low"
      case Medium => "Medium"
      case High => "High"
    }
  }

  datatype WorkType = Private | SelfEmployed | GovtJob | Children | NeverWorked {
    function Value(): string {
      match this
      case Private => "Private"
      case SelfEmployed => "Self-employed"
      case GovtJob => "Govt_job"
      case Children => "children"
      case NeverWorked => "Never_worked"
    }
  }

  datatype ResidenceType = Urban | Rural {
    function Value(): string {
      match this
      case Urban => "Urban"
      case Rural => "Rural"
    }
  }

  datatype SmokingStatus = FormerlySmoked | NeverSmoked | Smokes | Unknown {
    function Value(): string {
      match this
      case FormerlySmoked => "formerly smoked"
      case NeverSmoked => "never smoked"
      case Smokes => "smokes"
      case Unknown => "Unknown"
    }
  }

  /** Every member of each enum, in declaration order. */
  const AllRiskLevels: seq<RiskLevel> := [Low, Medium, High]
  const AllWorkTypes: seq<WorkType> := [Private, SelfEmployed, GovtJob, Children, NeverWorked]
  const AllSmokingStatuses: seq<SmokingStatus> := [FormerlySmoked, NeverSmoked, Smokes, Unknown]
  const AllResidenceTypes: seq<ResidenceType> := [Urban, Rural]

  lemma EnumListsAreComplete(l: RiskLevel, w: WorkType, s: SmokingStatus)
    ensures l in AllRiskLevels && w in AllWorkTypes && s in AllSmokingStatuses
  {
  }

  /** The wire strings an enum accepts. */
  function RiskLevelValues(): set<string> { set l | l in AllRiskLevels :: l.Value() }
  function WorkTypeValues(): set<string> { set w | w in AllWorkTypes :: w.Value() }
  function SmokingStatusValues(): set<string> { set s | s in AllSmokingStatuses :: s.Value() }
  function ResidenceTypeValues(): set<string> { set t | t in AllResidenceTypes :: t.Value() }

  // Parsing a wire string into an enum member, as request validation does.

  function ParseRiskLevel(s: string): (r: Option<RiskLevel>)
    ensures r.Some? ==> r.value.Value() == s
    ensures r.None? ==> forall l: RiskLevel :: l.Value() != s
  {
    if s == "Low" then Some(Low)
    else if s == "Medium" then Some(Medium)
    else if s == "High" then Some(High)
    else None
  }

  function ParseWorkType(s: string): (r: Option<WorkType>)
    ensures r.Some? ==> r.value.Value() == s
    ensures r.None? ==> forall w: WorkType :: w.Value() != s
  {
    if s == "Private" then Some(Private)
    else if s == "Self-employed" then Some(SelfEmployed)
    else if s == "Govt_job" then Some(GovtJob)
    else if s == "children" then Some(Children)
    else if s == "Never_worked" then Some(NeverWorked)
    else None
  }

  function ParseResidenceType(s: string): (r: Option<ResidenceType>)
    ensures r.Some? ==> r.value.Value() == s
    ensures r.None? ==> forall t: ResidenceType :: t.Value() != s
  {
    if s == "Urban" then Some(Urban)
    else if s == "Rural" then Some(Rural)
    else None
  }

  function ParseSmokingStatus(s: string): (r: Option<SmokingStatus>)
    ensures r.Some? ==> r.value.Value() == s
    ensures r.None? ==> forall t: SmokingStatus :: t.Value() != s
  {
    if s == "formerly smoked" then Some(FormerlySmoked)
    else if s == "never smoked" then Some(NeverSmoked)
    else if s == "smokes" then Some(Smokes)
    else if s == "Unknown" then Some(Unknown)
    else None
  }

  // ---------------------------------------------------------------- dates

  /** A calendar date (`datetime.date`); validity of the day within its month is not needed here. */
  datatype Date = Date(year: int, month: int, day: int)

  /** Strict chronological order: lexicographic on (year, month, day). */
  predicate Before(a: Date, b: Date) {
    a.year < b.year
    || (a.year == b.year && (a.month < b.month || (a.month == b.month && a.day < b.day)))
  }

  // ---------------------------------------------------------------- screening input

  /** The screening request body as received, enums still as strings. */
  datatype RawScreeningInput = RawScreeningInput(
    heightCm: real, weightKg: real,
    hypertension: bool, heartDisease: bool, everMarried: bool,
    workType: string, residenceType: string,
    avgGlucoseLevel: real, smokingStatus: string)

  /** `ScreeningInput` after validation. */
  datatype ScreeningInput = ScreeningInput(
    heightCm: real, weightKg: real,
    hypertension: bool, heartDisease: bool, everMarried: bool,
    workType: WorkType, residenceType: ResidenceType,
    avgGlucoseLevel: real, smokingStatus: SmokingStatus)

  /** The inclusive numeric bounds the `ScreeningInput` fields declare. */
  predicate InFieldBounds(heightCm: real, weightKg: real, avgGlucoseLevel: real) {
    && 50.0 <= heightCm <= 250.0
    && 20.0 <= weightKg <= 300.0
    && 50.0 <= avgGlucoseLevel <= 400.0
  }

  predicate WithinFieldBounds(x: ScreeningInput) {
    InFieldBounds(x.heightCm, x.weightKg, x.avgGlucoseLevel)
  }

  const ValidationFailed := HttpError(UnprocessableEntity, "Validation error")

  /** Request validation of a screening body: every bound inclusive, every enum string a member value. */
  function ValidateScreeningInput(raw: RawScreeningInput): (r: Result<ScreeningInput>)
    ensures r.Ok? <==>
      && InFieldBounds(raw.heightCm, raw.weightKg, raw.avgGlucoseLevel)
      && raw.workType in WorkTypeValues()
      && raw.residenceType in ResidenceTypeValues()
      && raw.smokingStatus in SmokingStatusValues()
    ensures r.Ok? ==>
      && WithinFieldBounds(r.value)
      && r.value.heightCm == raw.heightCm && r.value.weightKg == raw.weightKg
      && r.value.hypertension == raw.hypertension && r.value.heartDisease == raw.heartDisease
      && r.value.everMarried == raw.everMarried && r.value.avgGlucoseLevel == raw.avgGlucoseLevel
      && r.value.workType.Value() == raw.workType
      && r.value.residenceType.Value() == raw.residenceType
      && r.value.smokingStatus.Value() == raw.smokingStatus
    ensures r.Fail? ==> r.error == ValidationFailed
  {
    var work := ParseWorkType(raw.workType);
    var residence := ParseResidenceType(raw.residenceType);
    var smoking := ParseSmokingStatus(raw.smokingStatus);
    if && InFieldBounds(raw.heightCm, raw.weightKg, raw.avgGlucoseLevel)
       && work.Some? && residence.Some? && smoking.Some?
    then
      Ok(ScreeningInput(raw.heightCm, raw.weightKg, raw.hypertension, raw.heartDisease, raw.everMarried,
                        work.value, residence.value, raw.avgGlucoseLevel, smoking.value))
    else
      Fail(ValidationFailed)
  }

  // ---------------------------------------------------------------- registration input

  datatype UserRegister = UserRegister(
    email: string, password: string, fullName: string,
    dateOfBirth: Date, gender: Gender, phoneNumber: Option<string>)

  datatype UserLogin = UserLogin(email: string, password: string)

  /** The phone-number validator: a present, non-empty number must start with '+'. */
  function ValidatePhone(v: Option<string>): (r: Result<Option<string>>)
    ensures r.Ok? <==> v.None? || v.value == "" || v.value[0] == '+'
    ensures r.Ok? ==> r.value == v
    ensures r.Fail? ==> r.error == HttpError(UnprocessableEntity, "Phone number must start with +")
  {
    if v.Some? && v.value != "" && !("+" <= v.value) then
      Fail(HttpError(UnprocessableEntity, "Phone number must start with +"))
    else
      Ok(v)
  }

  /** Request validation of a registration body (the e-mail syntax check is not modelled). */
  function ValidateUserRegister(u: UserRegister): (r: Result<UserRegister>)
    ensures r.Ok? <==> |u.password| >= 8 && 2 <= |u.fullName| <= 255 && ValidatePhone(u.phoneNumber).Ok?
    ensures r.Ok? ==> r.value == u
  {
    if |u.password| < 8 || |u.fullName| < 2 || |u.fullName| > 255 then
      Fail(ValidationFailed)
    else
      match ValidatePhone(u.phoneNumber)
      case Fail(e) => Fail(e)
      case Ok(phone) => Ok(u.(phoneNumber := phone))
  }
}
