/** The screening pipeline of `app/routers/screening.py`: age and BMI derivation,
    the feature encoding the trained model expects, the probability-to-band
    classifier, and the `stroke_screenings` table with the create, history and
    detail endpoints. */
module Screening {
  import opened Errors
  import opened Models
  import opened Users
  import opened Queries

  // ================================================================ age

  /** The date `n` years after `d`, same month and day (possibly not a real
      calendar day, such as 29 February; the ordering does not care). */
  function YearsLater(d: Date, n: int): Date {
    Date(d.year + n, d.month, d.day)
  }

  /** `calculate_age`: the number of birthdays that have come by `today`. The
      `age`-th anniversary is on or before today and the next one is after it. */
  function CalculateAge(birth: Date, today: Date): (age: int)
    ensures !Before(today, YearsLater(birth, age))
    ensures Before(today, YearsLater(birth, age + 1))
  {
    var age := today.year - birth.year;
    if today.month < birth.month || (today.month == birth.month && today.day < birth.day) then
      age - 1
    else
      age
  }

  /** The two anniversary conditions pin the age down: no other count satisfies them. */
  lemma AgeIsTheCompletedYears(birth: Date, today: Date, n: int)
    requires !Before(today, YearsLater(birth, n))
    requires Before(today, YearsLater(birth, n + 1))
    ensures n == CalculateAge(birth, today)
  {
  }

  /** The age goes up on the birthday itself, not the day after. */
  lemma AgeOnBirthday(birth: Date, n: int)
    ensures CalculateAge(birth, YearsLater(birth, n)) == n
  {
  }

  /** Nobody born on or before today has a negative age. */
  lemma AgeNonNegative(birth: Date, today: Date)
    requires !Before(today, birth)
    ensures CalculateAge(birth, today) >= 0
  {
  }

  lemma AgeExamples()
    ensures CalculateAge(Date(2000, 6, 15), Date(2024, 6, 14)) == 23
    ensures CalculateAge(Date(2000, 6, 15), Date(2024, 6, 15)) == 24
  {
  }

  // ================================================================ BMI

  /** `round(x, 1)`, rounding half up to a whole number of tenths. */
  function Round1(x: real): (r: real)
    ensures x - 0.05 < r <= x + 0.05
    ensures (r * 10.0).Floor as real == r * 10.0
  {
    ((x * 10.0 + 0.5).Floor as real) / 10.0
  }

  /** Weight over height in metres squared, before rounding. */
  function BmiExact(heightCm: real, weightKg: real): real
    requires heightCm != 0.0
  {
    weightKg / ((heightCm / 100.0) * (heightCm / 100.0))
  }

  /** `calculate_bmi`: the body-mass index rounded to one decimal. */
  function CalculateBmi(heightCm: real, weightKg: real): (bmi: real)
    requires heightCm != 0.0
    ensures BmiExact(heightCm, weightKg) - 0.05 < bmi <= BmiExact(heightCm, weightKg) + 0.05
    ensures (bmi * 10.0).Floor as real == bmi * 10.0
  {
    Round1(BmiExact(heightCm, weightKg))
  }

  /** A weight in [20, 300] over a squared height in [0.25, 6.25] lies in [3.2, 1200]. */
  lemma QuotientBounds(w: real, d: real)
    requires 20.0 <= w <= 300.0 && 0.25 <= d <= 6.25
    ensures 3.2 <= w / d <= 1200.0
  {
    var q := w / d;
    assert q * d == w;
    assert q > 0.0;
    assert q * 0.25 <= q * d <= q * 6.25;
  }

  /** Over the validated ranges the index lies between 20/2.5^2 and 300/0.5^2, up to rounding. */
  lemma BmiBoundsForValidatedInput(heightCm: real, weightKg: real)
    requires 50.0 <= heightCm <= 250.0 && 20.0 <= weightKg <= 300.0
    ensures 3.15 < CalculateBmi(heightCm, weightKg) <= 1200.05
  {
    var m := heightCm / 100.0;
    SquareBounds(m);
    QuotientBounds(weightKg, m * m);
    assert BmiExact(heightCm, weightKg) == weightKg / (m * m);
  }

  lemma SquareBounds(m: real)
    requires 0.5 <= m <= 2.5
    ensures 0.25 <= m * m <= 6.25
  {
    assert m * m <= 2.5 * m;
    assert m * m >= 0.5 * m;
  }

  lemma BmiExample()
    ensures CalculateBmi(170.0, 70.0) == 24.2
  {
    var exact := BmiExact(170.0, 70.0);
    assert exact == 70.0 / 2.89;
    assert 24.2 * 2.89 < 70.0 < 24.25 * 2.89;
    assert 242.0 <= exact * 10.0 + 0.5 < 243.0;
  }

  // ================================================================ risk band

  /** `get_risk_level`: three bands with lower bounds 0.7 (High) and 0.4 (Medium).
      There is no range check: any real lands in a band. */
  function GetRiskLevel(probability: real): (level: string)
    ensures level == "High" <==> probability >= 0.7
    ensures level == "Medium" <==> 0.4 <= probability < 0.7
    ensures level == "Low" <==> probability < 0.4
  {
    if probability >= 0.7 then "High"
    else if probability >= 0.4 then "Medium"
    else "Low"
  }

  /** Ordinal of a band, for comparing them. */
  function Severity(level: string): int {
    if level == "High" then 2 else if level == "Medium" then 1 else 0
  }

  /** A higher probability never gets a lower band. */
  lemma RiskLevelMonotonic(p: real, q: real)
    requires p <= q
    ensures Severity(GetRiskLevel(p)) <= Severity(GetRiskLevel(q))
  {
  }

  lemma RiskLevelBoundaries()
    ensures GetRiskLevel(0.69) == "Medium" && GetRiskLevel(0.7) == "High"
    ensures GetRiskLevel(0.39) == "Low" && GetRiskLevel(0.4) == "Medium"
    ensures GetRiskLevel(1.5) == "High" && GetRiskLevel(-0.2) == "Low"
  {
  }

  /** The classifier's outputs are exactly the `RiskLevel` values: every output
      is one of them ... */
  lemma RiskLevelOutputsAreEnumValues(p: real)
    ensures GetRiskLevel(p) in RiskLevelValues()
    ensures ParseRiskLevel(GetRiskLevel(p)).Some?
  {
    var level := if p >= 0.7 then High else if p >= 0.4 then Medium else Low;
    assert level in AllRiskLevels;
    assert GetRiskLevel(p) == level.Value();
  }

  /** ... and every one of them is some probability's band. */
  lemma EveryRiskLevelIsReached(level: RiskLevel)
    ensures exists p: real :: GetRiskLevel(p) == level.Value()
  {
    var p := match level case Low => 0.0 case Medium => 0.5 case High => 1.0;
    assert GetRiskLevel(p) == level.Value();
  }

  // ================================================================ feature encoding

  function Sum(s: seq<int>): int {
    if s == [] then 0 else s[0] + Sum(s[1..])
  }

  /** A one-hot group: every column 0 or 1, and the columns add up to 1. */
  predicate OneHot(s: seq<int>) {
    (forall i :: 0 <= i < |s| ==> s[i] == 0 || s[i] == 1) && Sum(s) == 1
  }

  lemma {:induction false} ZeroOneSum(s: seq<int>)
    requires forall i :: 0 <= i < |s| ==> s[i] == 0 || s[i] == 1
    ensures Sum(s) >= 0
    ensures Sum(s) == 0 <==> forall i :: 0 <= i < |s| ==> s[i] == 0
  {
    if s != [] {
      ZeroOneSum(s[1..]);
      if Sum(s) == 0 {
        forall i | 0 <= i < |s| ensures s[i] == 0 {
          if i > 0 { assert s[i] == s[1..][i - 1]; }
        }
      }
    }
  }

  /** Column `k` is 1 and every other column is 0. */
  predicate HotAt(s: seq<int>, k: int) {
    0 <= k < |s| && s[k] == 1 && forall j :: 0 <= j < |s| && j != k ==> s[j] == 0
  }

  lemma {:induction false} OneHotHasHotColumn(s: seq<int>)
    requires OneHot(s)
    ensures exists k :: HotAt(s, k)
  {
    var t := s[1..];
    assert forall j :: 1 <= j < |s| ==> s[j] == t[j - 1];
    ZeroOneSum(t);
    if s[0] == 1 {
      assert HotAt(s, 0);
    } else {
      assert OneHot(t);
      OneHotHasHotColumn(t);
      var k :| HotAt(t, k);
      assert HotAt(s, k + 1);
    }
  }

  lemma {:induction false} HotColumnIsOneHot(s: seq<int>, k: int)
    requires HotAt(s, k)
    ensures OneHot(s)
  {
    var t := s[1..];
    assert forall j :: 1 <= j < |s| ==> s[j] == t[j - 1];
    if k == 0 {
      ZeroOneSum(t);
    } else {
      assert HotAt(t, k - 1);
      HotColumnIsOneHot(t, k - 1);
    }
  }

  /** One-hot means exactly one column is 1 and every other column is 0. */
  lemma OneHotMeansExactlyOne(s: seq<int>)
    ensures OneHot(s) <==> exists k :: HotAt(s, k)
  {
    if OneHot(s) {
      OneHotHasHotColumn(s);
    }
    if exists k :: HotAt(s, k) {
      var k :| HotAt(s, k);
      HotColumnIsOneHot(s, k);
    }
  }

  /** The work-type lookup table, columns Govt_job, Never_worked, Private, Self_employed, children. */
  const WorkTypeTable: map<string, seq<int>> := map[
    "Govt_job" := [1, 0, 0, 0, 0],
    "Never_worked" := [0, 1, 0, 0, 0],
    "Private" := [0, 0, 1, 0, 0],
    "Self-employed" := [0, 0, 0, 1, 0],
    "children" := [0, 0, 0, 0, 1]]

  /** The smoking-status lookup table, columns Unknown, formerly_smoked, never_smoked, smokes. */
  const SmokingTable: map<string, seq<int>> := map[
    "Unknown" := [1, 0, 0, 0],
    "formerly smoked" := [0, 1, 0, 0],
    "never smoked" := [0, 0, 1, 0],
    "smokes" := [0, 0, 0, 1]]

  const GenderTable: map<string, int> := map["Male" := 1, "Female" := 0]
  const ResidenceTable: map<string, int> := map["Urban" := 1, "Rural" := 0]

  /** Work-type columns; an unknown value gets the Private columns. */
  function EncodeWorkType(workType: string): (columns: seq<int>)
    ensures |columns| == 5 && OneHot(columns)
    ensures columns[0] == 1 <==> workType == "Govt_job"
    ensures columns[1] == 1 <==> workType == "Never_worked"
    ensures columns[2] == 1 <==> workType !in {"Govt_job", "Never_worked", "Self-employed", "children"}
    ensures columns[3] == 1 <==> workType == "Self-employed"
    ensures columns[4] == 1 <==> workType == "children"
  {
    if workType in WorkTypeTable then WorkTypeTable[workType] else [0, 0, 1, 0, 0]
  }

  /** Smoking columns; an unknown value gets the never-smoked columns. */
  function EncodeSmokingStatus(status: string): (columns: seq<int>)
    ensures |columns| == 4 && OneHot(columns)
    ensures columns[0] == 1 <==> status == "Unknown"
    ensures columns[1] == 1 <==> status == "formerly smoked"
    ensures columns[2] == 1 <==> status !in {"Unknown", "formerly smoked", "smokes"}
    ensures columns[3] == 1 <==> status == "smokes"
  {
    if status in SmokingTable then SmokingTable[status] else [0, 0, 1, 0]
  }

  /** An unknown work type encodes exactly as Private does. */
  lemma UnknownWorkTypeIsPrivate(workType: string)
    requires workType !in WorkTypeTable
    ensures EncodeWorkType(workType) == EncodeWorkType("Private")
  {
  }

  /** An unknown smoking status encodes exactly as "never smoked" does. */
  lemma UnknownSmokingStatusIsNeverSmoked(status: string)
    requires status !in SmokingTable
    ensures EncodeSmokingStatus(status) == EncodeSmokingStatus("never smoked")
  {
  }

  /** The encoder tables have exactly the enum values as keys, so a validated
      input never reaches the fallback. */
  lemma EncoderTablesMatchEnums()
    ensures WorkTypeTable.Keys == WorkTypeValues()
    ensures SmokingTable.Keys == SmokingStatusValues()
    ensures GenderTable.Keys == {Male.Value(), Female.Value()}
    ensures ResidenceTable.Keys == ResidenceTypeValues()
  {
    assert ResidenceTypeValues() == {Urban.Value(), Rural.Value()};
    assert forall w :: w in AllWorkTypes ==> w.Value() in WorkTypeTable;
    assert forall k :: k in WorkTypeTable ==> ParseWorkType(k).Some?;
    forall k | k in WorkTypeTable ensures k in WorkTypeValues() {
      EnumListsAreComplete(Low, ParseWorkType(k).value, Unknown);
    }
    assert forall s :: s in AllSmokingStatuses ==> s.Value() in SmokingTable;
    forall k | k in SmokingTable ensures k in SmokingStatusValues() {
      EnumListsAreComplete(Low, Private, ParseSmokingStatus(k).value);
    }
  }

  /** The index of the hot column of a group. */
  function HotColumn(columns: seq<int>): (k: int)
    ensures k == -1 || (0 <= k < |columns| && columns[k] == 1)
  {
    if columns == [] then -1
    else if columns[0] == 1 then 0
    else var k := HotColumn(columns[1..]); if k == -1 then -1 else k + 1
  }

  /** Reads back which work type a group of columns stands for. */
  function DecodeWorkType(columns: seq<int>): Option<WorkType> {
    match HotColumn(columns)
    case 0 => Some(GovtJob)
    case 1 => Some(NeverWorked)
    case 2 => Some(Private)
    case 3 => Some(SelfEmployed)
    case 4 => Some(Children)
    case _ => None
  }

  /** Reads back which smoking status a group of columns stands for. */
  function DecodeSmokingStatus(columns: seq<int>): Option<SmokingStatus> {
    match HotColumn(columns)
    case 0 => Some(Unknown)
    case 1 => Some(FormerlySmoked)
    case 2 => Some(NeverSmoked)
    case 3 => Some(Smokes)
    case _ => None
  }

  /** Distinct work types get distinct columns: the encoding loses nothing for validated input. */
  lemma WorkTypeEncodingRoundTrip(w: WorkType)
    ensures DecodeWorkType(EncodeWorkType(w.Value())) == Some(w)
  {
    var c := EncodeWorkType(w.Value());
    match w
    case GovtJob => assert HotColumn(c) == 0;
    case NeverWorked => assert HotColumn(c) == 1;
    case Private => assert HotColumn(c) == 2;
    case SelfEmployed => assert HotColumn(c) == 3;
    case Children => assert HotColumn(c) == 4;
  }

  /** Distinct smoking statuses get distinct columns. */
  lemma SmokingEncodingRoundTrip(s: SmokingStatus)
    ensures DecodeSmokingStatus(EncodeSmokingStatus(s.Value())) == Some(s)
  {
    var c := EncodeSmokingStatus(s.Value());
    match s
    case Unknown => assert HotColumn(c) == 0;
    case FormerlySmoked => assert HotColumn(c) == 1;
    case NeverSmoked => assert HotColumn(c) == 2;
    case Smokes => assert HotColumn(c) == 3;
  }

  /** The dictionary handed to `prepare_ml_input`. */
  datatype MlRequest = MlRequest(
    gender: Option<string>,
    hypertension: bool, heartDisease: bool, everMarried: bool,
    workType: string, residenceType: string,
    avgGlucoseLevel: real, smokingStatus: string)

  /** The feature vector, one field per key of the model's input dictionary. */
  datatype Features = Features(
    age: int, gender: int, hypertension: int, heartDisease: int, everMarried: int,
    residenceType: int, avgGlucoseLevel: real, bmi: real,
    workTypeGovtJob: int, workTypeNeverWorked: int, workTypePrivate: int,
    workTypeSelfEmployed: int, workTypeChildren: int,
    smokingUnknown: int, smokingFormerlySmoked: int, smokingNeverSmoked: int, smokingSmokes: int)
  {
    function WorkTypeColumns(): seq<int> {
      [workTypeGovtJob, workTypeNeverWorked, workTypePrivate, workTypeSelfEmployed, workTypeChildren]
    }

    function SmokingColumns(): seq<int> {
      [smokingUnknown, smokingFormerlySmoked, smokingNeverSmoked, smokingSmokes]
    }

    /** The values in key order, as the model reads them. */
    function Values(): seq<real> {
      [age as real, gender as real, hypertension as real, heartDisease as real,
       everMarried as real, residenceType as real, avgGlucoseLevel, bmi,
       workTypeGovtJob as real, workTypeNeverWorked as real, workTypePrivate as real,
       workTypeSelfEmployed as real, workTypeChildren as real,
       smokingUnknown as real, smokingFormerlySmoked as real,
       smokingNeverSmoked as real, smokingSmokes as real]
    }
  }

  /** The model's input keys, in the order the dictionary is built. */
  const FeatureKeys: seq<string> := [
    "age", "gender", "hypertension", "heart_disease", "ever_married",
    "Residence_type", "avg_glucose_level", "bmi",
    "work_type_Govt_job", "work_type_Never_worked", "work_type_Private",
    "work_type_Self_employed", "work_type_children",
    "smoking_status_Unknown", "smoking_status_formerly_smoked",
    "smoking_status_never_smoked", "smoking_status_smokes"]

  /** Seventeen distinct keys, one per value. */
  lemma FeatureKeysAreDistinct(f: Features)
    ensures |FeatureKeys| == |f.Values()| == 17
    ensures forall i, j :: 0 <= i < j < |FeatureKeys| ==> FeatureKeys[i] != FeatureKeys[j]
  {
  }

  /** A dictionary literal: the i-th key bound to the i-th value. */
  function Zip(keys: seq<string>, values: seq<real>): map<string, real>
    requires |keys| == |values|
  {
    if keys == [] then map[] else Zip(keys[1..], values[1..])[keys[0] := values[0]]
  }

  /** With distinct keys, the literal has exactly those keys and each looks up its own value. */
  lemma {:induction false} ZipLookup(keys: seq<string>, values: seq<real>)
    requires |keys| == |values|
    requires forall i, j :: 0 <= i < j < |keys| ==> keys[i] != keys[j]
    ensures Zip(keys, values).Keys == set k | k in keys
    ensures forall i :: 0 <= i < |keys| ==> Zip(keys, values)[keys[i]] == values[i]
  {
    if keys != [] {
      var tail, rest := keys[1..], values[1..];
      assert forall i, j :: 0 <= i < j < |tail| ==> tail[i] != tail[j] by {
        forall i, j | 0 <= i < j < |tail| ensures tail[i] != tail[j] {
          assert tail[i] == keys[i + 1] && tail[j] == keys[j + 1];
        }
      }
      ZipLookup(tail, rest);
      assert keys == [keys[0]] + tail;
      forall i | 0 < i < |keys|
        ensures Zip(keys, values)[keys[i]] == values[i]
      {
        assert keys[i] == tail[i - 1] && values[i] == rest[i - 1];
        assert keys[i] != keys[0];
      }
    }
  }

  /** The dictionary `prepare_ml_input` returns. */
  function Dictionary(f: Features): map<string, real> {
    Zip(FeatureKeys, f.Values())
  }

  /** The dictionary has exactly the seventeen keys, and each key names its own column. */
  lemma DictionaryInKeyOrder(f: Features)
    ensures Dictionary(f).Keys == set k | k in FeatureKeys
    ensures forall i :: 0 <= i < |FeatureKeys| ==> Dictionary(f)[FeatureKeys[i]] == f.Values()[i]
  {
    var keys, values := FeatureKeys, f.Values();
    FeatureKeysAreDistinct(f);
    ZipLookup(keys, values);
  }

  /** A few entries by name: the scalars and the fallback columns. */
  lemma DictionaryEntries(f: Features)
    ensures "age" in Dictionary(f) && Dictionary(f)["age"] == f.age as real
    ensures "bmi" in Dictionary(f) && Dictionary(f)["bmi"] == f.bmi
    ensures "Residence_type" in Dictionary(f) && Dictionary(f)["Residence_type"] == f.residenceType as real
    ensures "work_type_Private" in Dictionary(f) && Dictionary(f)["work_type_Private"] == f.workTypePrivate as real
    ensures "smoking_status_never_smoked" in Dictionary(f)
         && Dictionary(f)["smoking_status_never_smoked"] == f.smokingNeverSmoked as real
  {
    DictionaryInKeyOrder(f);
    var keys := FeatureKeys;
    assert keys[0] == "age" && keys[7] == "bmi" && keys[5] == "Residence_type";
    assert keys[10] == "work_type_Private" && keys[15] == "smoking_status_never_smoked";
  }

  /** The gender column: Female is 0; Male, a missing gender and any other value are 1. */
  function EncodeGender(gender: Option<string>): (v: int)
    ensures v == (if gender == Some("Female") then 0 else 1)
  {
    if gender.Some? && gender.value in GenderTable then GenderTable[gender.value] else 1
  }

  /** The residence column: Rural is 0; Urban and any other value are 1. */
  function EncodeResidence(residence: string): (v: int)
    ensures v == (if residence == "Rural" then 0 else 1)
  {
    if residence in ResidenceTable then ResidenceTable[residence] else 1
  }

  function BoolToInt(b: bool): int {
    if b then 1 else 0
  }

  /** `prepare_ml_input`: scalars pass through, booleans become 0/1, gender and
      residence default to 1, and each categorical becomes a one-hot group. */
  function PrepareMlInput(data: MlRequest, age: int, bmi: real): (f: Features)
    ensures f.age == age && f.bmi == bmi && f.avgGlucoseLevel == data.avgGlucoseLevel
    ensures f.gender == (if data.gender == Some("Female") then 0 else 1)
    ensures f.residenceType == (if data.residenceType == "Rural" then 0 else 1)
    ensures f.hypertension == (if data.hypertension then 1 else 0)
    ensures f.heartDisease == (if data.heartDisease then 1 else 0)
    ensures f.everMarried == (if data.everMarried then 1 else 0)
    ensures OneHot(f.WorkTypeColumns()) && OneHot(f.SmokingColumns())
    ensures f.WorkTypeColumns() == EncodeWorkType(data.workType)
    ensures f.SmokingColumns() == EncodeSmokingStatus(data.smokingStatus)
  {
    var work := EncodeWorkType(data.workType);
    var smoking := EncodeSmokingStatus(data.smokingStatus);
    var f := Features(
      age, EncodeGender(data.gender), BoolToInt(data.hypertension), BoolToInt(data.heartDisease),
      BoolToInt(data.everMarried), EncodeResidence(data.residenceType), data.avgGlucoseLevel, bmi,
      work[0], work[1], work[2], work[3], work[4],
      smoking[0], smoking[1], smoking[2], smoking[3]);
    assert f.WorkTypeColumns() == work;
    assert f.SmokingColumns() == smoking;
    f
  }

  /** The dictionary `create_screening` builds from the request and the current user. */
  function MlRequestFor(input: ScreeningInput, gender: Option<string>): MlRequest {
    MlRequest(gender, input.hypertension, input.heartDisease, input.everMarried,
              input.workType.Value(), input.residenceType.Value(),
              input.avgGlucoseLevel, input.smokingStatus.Value())
  }

  /** For a validated request each categorical group is the one its enum value names. */
  lemma ValidatedInputEncodesItsOwnCategories(input: ScreeningInput, gender: Option<string>, age: int, bmi: real)
    ensures var f := PrepareMlInput(MlRequestFor(input, gender), age, bmi);
      && DecodeWorkType(f.WorkTypeColumns()) == Some(input.workType)
      && DecodeSmokingStatus(f.SmokingColumns()) == Some(input.smokingStatus)
      && f.residenceType == (if input.residenceType == Urban then 1 else 0)
  {
    WorkTypeEncodingRoundTrip(input.workType);
    SmokingEncodingRoundTrip(input.smokingStatus);
  }

  // ================================================================ prediction

  /** What the predictor's `make_prediction` returns: a dictionary whose keys may be
      missing, or an exception. */
  datatype PredictorReply =
    | Prediction(probability: Option<real>, riskFactors: Option<seq<string>>,
                 confidence: Option<string>, prediction: Option<int>, threshold: Option<real>)
    | PredictorRaised(message: string)

  /** The loaded model, an opaque scoring function. */
  type Predictor = Features -> PredictorReply

  // ================================================================ stroke_screenings

  /** A row of `stroke_screenings`. */
  datatype ScreeningRecord = ScreeningRecord(
    id: string, userId: string, ageAtScreening: int,
    heightCm: real, weightKg: real, bmi: real,
    hypertension: bool, heartDisease: bool, everMarried: bool,
    workType: WorkType, residenceType: ResidenceType,
    avgGlucoseLevel: real, smokingStatus: SmokingStatus,
    strokeProbability: real, riskLevel: string,
    riskFactors: seq<string>, confidence: string, prediction: int, threshold: real,
    createdAt: int)

  /** The columns the history listing selects. */
  datatype ScreeningSummary = ScreeningSummary(
    id: string, ageAtScreening: int, bmi: real, riskLevel: string,
    strokeProbability: real, createdAt: int)

  function Summarize(s: ScreeningRecord): ScreeningSummary {
    ScreeningSummary(s.id, s.ageAtScreening, s.bmi, s.riskLevel, s.strokeProbability, s.createdAt)
  }

  /** The columns a single screening is answered with: the row without the
      predictor's risk factors, confidence, binary prediction and threshold. */
  datatype ScreeningResponse = ScreeningResponse(
    id: string, userId: string, ageAtScreening: int,
    heightCm: real, weightKg: real, bmi: real,
    hypertension: bool, heartDisease: bool, everMarried: bool,
    workType: WorkType, residenceType: ResidenceType,
    avgGlucoseLevel: real, smokingStatus: SmokingStatus,
    strokeProbability: real, riskLevel: string, createdAt: int)

  function Respond(s: ScreeningRecord): ScreeningResponse {
    ScreeningResponse(
      s.id, s.userId, s.ageAtScreening, s.heightCm, s.weightKg, s.bmi,
      s.hypertension, s.heartDisease, s.everMarried, s.workType, s.residenceType,
      s.avgGlucoseLevel, s.smokingStatus, s.strokeProbability, s.riskLevel, s.createdAt)
  }

  function RecordCreatedAt(s: ScreeningRecord): int { s.createdAt }
  function ResponseCreatedAt(s: ScreeningResponse): int { s.createdAt }
  function SummaryCreatedAt(s: ScreeningSummary): int { s.createdAt }

  /** `WHERE user_id = uid`. */
  function OwnedBy(uid: string): ScreeningRecord -> bool {
    (s: ScreeningRecord) => s.userId == uid
  }

  /** What every stored screening satisfies: ids are unique and the stored band is
      the band of the stored probability. */
  predicate WellFormedScreenings(rows: seq<ScreeningRecord>) {
    && (forall i, j :: 0 <= i < j < |rows| ==> rows[i].id != rows[j].id)
    && (forall i :: 0 <= i < |rows| ==> rows[i].riskLevel == GetRiskLevel(rows[i].strokeProbability))
  }

  const ModelUnavailable := HttpError(ServiceUnavailable, "ML model not available")
  const ScreeningFailed := HttpError(InternalServerError, "Screening failed")
  const ScreeningNotFound := HttpError(NotFound, "Screening not found")

  class ScreeningTable {
    var rows: seq<ScreeningRecord>

    ghost predicate Valid()
      reads this
    {
      WellFormedScreenings(rows)
    }

    constructor ()
      ensures Valid() && rows == []
    {
      rows := [];
    }

    /** `create_screening`: refuses with 503 when no model is loaded, then derives age
        and BMI, encodes, predicts, bands the probability and inserts one row. A failure
        of any step is a 500 and leaves the table as it was. `today`, `newId` and `now`
        are the clock and the values the database generates. */
    method CreateScreening(
      input: ScreeningInput, current: User, predictor: Option<Predictor>,
      today: Date, newId: string, now: int)
      returns (r: Result<ScreeningResponse>)
      requires Valid()
      requires WithinFieldBounds(input)
      requires current.role == Patient
      requires forall i :: 0 <= i < |rows| ==> rows[i].id != newId
      modifies this
      ensures Valid()
      ensures predictor.None? ==> r == Fail(ModelUnavailable)
      ensures r.Fail? ==> rows == old(rows)
      ensures r.Ok? ==> |rows| == |old(rows)| + 1 && rows == old(rows) + [rows[|old(rows)|]]
      ensures r.Ok? ==> r.value == Respond(rows[|old(rows)|])
      ensures r.Ok? <==>
        && predictor.Some? && current.dateOfBirth.Some?
        && var f := PrepareMlInput(
             MlRequestFor(input, current.gender),
             CalculateAge(current.dateOfBirth.value, today),
             CalculateBmi(input.heightCm, input.weightKg));
           predictor.value(f).Prediction?
      ensures r.Ok? ==>
        var s := rows[|old(rows)|];
        var age := CalculateAge(current.dateOfBirth.value, today);
        var bmi := CalculateBmi(input.heightCm, input.weightKg);
        var reply := predictor.value(PrepareMlInput(MlRequestFor(input, current.gender), age, bmi));
        && s.id == newId && s.userId == current.id && s.createdAt == now
        && s.ageAtScreening == age && s.bmi == bmi && s.bmi > 0.0
        && s.heightCm == input.heightCm && s.weightKg == input.weightKg
        && s.hypertension == input.hypertension && s.heartDisease == input.heartDisease
        && s.everMarried == input.everMarried && s.workType == input.workType
        && s.residenceType == input.residenceType && s.avgGlucoseLevel == input.avgGlucoseLevel
        && s.smokingStatus == input.smokingStatus
        && s.strokeProbability == reply.probability.GetOr(0.0)
        && s.riskLevel == GetRiskLevel(s.strokeProbability)
        && s.riskFactors == reply.riskFactors.GetOr([])
        && s.confidence == reply.confidence.GetOr("Medium")
        && s.prediction == reply.prediction.GetOr(0)
        && s.threshold == reply.threshold.GetOr(0.5)
      ensures r.Fail? && predictor.Some? ==> r.error == ScreeningFailed
    {
      if predictor.None? {
        return Fail(ModelUnavailable);
      }
      if current.dateOfBirth.None? {
        // `calculate_age(None)` raises, which the handler turns into a 500.
        return Fail(ScreeningFailed);
      }
      var age := CalculateAge(current.dateOfBirth.value, today);
      var bmi := CalculateBmi(input.heightCm, input.weightKg);
      BmiBoundsForValidatedInput(input.heightCm, input.weightKg);
      var features := PrepareMlInput(MlRequestFor(input, current.gender), age, bmi);
      var reply := predictor.value(features);
      if reply.PredictorRaised? {
        return Fail(ScreeningFailed);
      }
      var probability := reply.probability.GetOr(0.0);
      var record := ScreeningRecord(
        newId, current.id, age,
        input.heightCm, input.weightKg, bmi,
        input.hypertension, input.heartDisease, input.everMarried,
        input.workType, input.residenceType,
        input.avgGlucoseLevel, input.smokingStatus,
        probability, GetRiskLevel(probability),
        reply.riskFactors.GetOr([]), reply.confidence.GetOr("Medium"),
        reply.prediction.GetOr(0), reply.threshold.GetOr(0.5),
        now);
      rows := rows + [record];
      r := Ok(Respond(record));
    }

    /** `get_screening_history`: summaries of the caller's own screenings, newest first. */
    method History(current: User) returns (r: seq<ScreeningSummary>)
      requires current.role == Patient
      ensures NewestFirst(r, SummaryCreatedAt)
      ensures multiset(r) == multiset(Project(Filter(rows, OwnedBy(current.id)), Summarize))
      ensures |r| == Count(rows, OwnedBy(current.id))
      ensures forall x :: x in r ==> exists s :: s in rows && s.userId == current.id && Summarize(s) == x
    {
      var own := Filter(rows, OwnedBy(current.id));
      var summaries := Project(own, Summarize);
      r := SortNewestFirst(summaries, SummaryCreatedAt);
      assert |r| == |summaries| by {
        assert |multiset(r)| == |multiset(summaries)|;
      }
      forall x | x in r
        ensures exists s :: s in rows && s.userId == current.id && Summarize(s) == x
      {
        assert x in multiset(summaries);
        var k :| 0 <= k < |summaries| && summaries[k] == x;
        assert own[k] in rows && OwnedBy(current.id)(own[k]);
      }
    }

    /** `get_screening_detail`: the row with this id if the caller owns it, else 404
        (the same answer whether the row is missing or belongs to someone else). */
    method Detail(screeningId: string, current: User) returns (r: Result<ScreeningResponse>)
      requires current.role == Patient
      ensures r.Ok? ==> r.value.id == screeningId && r.value.userId == current.id
      ensures r.Ok? ==> exists s :: s in rows && r.value == Respond(s)
      ensures r.Fail? <==> forall s :: s in rows ==> !(s.id == screeningId && s.userId == current.id)
      ensures r.Fail? ==> r.error == ScreeningNotFound
    {
      var hits := Filter(rows, (s: ScreeningRecord) => s.id == screeningId && s.userId == current.id);
      if hits == [] {
        r := Fail(ScreeningNotFound);
      } else {
        r := Ok(Respond(hits[0]));
      }
    }
  }

  /** Two screenings submitted with the same input by the same patient on the same
      day are both stored: the second is not merged into the first. They succeed or
      fail together, and the two new rows differ only in their generated id and
      timestamp. */
  method ScreenTwice(
    t: ScreeningTable, input: ScreeningInput, current: User, predictor: Option<Predictor>,
    today: Date, firstId: string, secondId: string, firstAt: int, secondAt: int)
    returns (first: Result<ScreeningResponse>, second: Result<ScreeningResponse>)
    requires t.Valid()
    requires WithinFieldBounds(input)
    requires current.role == Patient
    requires firstId != secondId
    requires forall i :: 0 <= i < |t.rows| ==> t.rows[i].id != firstId && t.rows[i].id != secondId
    modifies t
    ensures t.Valid()
    ensures first.Ok? <==> second.Ok?
    ensures first.Fail? ==> t.rows == old(t.rows)
    ensures first.Ok? ==>
      var n := |old(t.rows)|;
      && |t.rows| == n + 2
      && t.rows[..n] == old(t.rows)
      && t.rows[n].id == firstId && t.rows[n + 1].id == secondId
      && t.rows[n].(id := secondId, createdAt := secondAt) == t.rows[n + 1]
  {
    first := t.CreateScreening(input, current, predictor, today, firstId, firstAt);
    second := t.CreateScreening(input, current, predictor, today, secondId, secondAt);
  }
}
