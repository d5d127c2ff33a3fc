/** The admin endpoints of `app/routers/admin.py` that compute something: the
    per-patient screening listing and the dashboard counters. Both only read
    snapshots of `users` and `stroke_screenings`. */
module Admin {
  import opened Errors
  import opened Models
  import opened Users
  import opened Queries
  import opened Screening
  import opened Dependencies

  const PatientNotFound := HttpError(NotFound, "Patient not found")

  /** `get_patient_screenings`: 404 unless a PATIENT row has this id; then the
      patient's screenings, newest first, without the predictor's extra columns.
      The patient check comes first. */
  function GetPatientScreenings(users: seq<User>, screenings: seq<ScreeningRecord>, patientId: string)
    : (r: Result<seq<ScreeningResponse>>)
    ensures r.Fail? <==> !IsPatientId(users, patientId)
    ensures r.Fail? ==> r.error == PatientNotFound
    ensures r.Ok? ==> NewestFirst(r.value, ResponseCreatedAt)
    ensures r.Ok? ==> multiset(r.value) == multiset(Project(Filter(screenings, OwnedBy(patientId)), Respond))
    ensures r.Ok? ==> |r.value| == Count(screenings, OwnedBy(patientId))
    ensures r.Ok? ==> forall x :: x in r.value ==>
      exists s :: s in screenings && s.userId == patientId && Respond(s) == x
  {
    if !IsPatientId(users, patientId) then
      Fail(PatientNotFound)
    else
      var own := Filter(screenings, OwnedBy(patientId));
      var responses := Project(own, Respond);
      var sorted := SortNewestFirst(responses, ResponseCreatedAt);
      assert |sorted| == |responses| by {
        assert |multiset(sorted)| == |multiset(responses)|;
      }
      assert forall x :: x in sorted ==>
        exists s :: s in screenings && s.userId == patientId && Respond(s) == x by {
        forall x | x in sorted
          ensures exists s :: s in screenings && s.userId == patientId && Respond(s) == x
        {
          assert x in multiset(responses);
          var k :| 0 <= k < |responses| && responses[k] == x;
          assert own[k] in screenings && OwnedBy(patientId)(own[k]);
        }
      }
      Ok(sorted)
  }

  /** An admin's own id (or any non-patient's) is "not found". */
  lemma AdminIdIsNotAPatient(users: seq<User>, screenings: seq<ScreeningRecord>, admin: User)
    requires IdsUnique(users)
    requires admin in users && admin.role == Admin
    ensures GetPatientScreenings(users, screenings, admin.id) == Fail(PatientNotFound)
  {
  }

  /** The existence check happens before any screening row is read: when it fails,
      the answer is the same whatever the screenings table holds. */
  lemma PatientCheckPrecedesScreeningRead(
    users: seq<User>, screenings: seq<ScreeningRecord>, other: seq<ScreeningRecord>, patientId: string)
    requires !IsPatientId(users, patientId)
    ensures GetPatientScreenings(users, screenings, patientId) == GetPatientScreenings(users, other, patientId)
  {
  }

  /** The route: bearer-token authentication, the ADMIN gate, then the listing. */
  function PatientScreeningsRoute(
    users: seq<User>, screenings: seq<ScreeningRecord>,
    decode: string -> Option<Claims>, token: string, patientId: string)
    : (r: Result<seq<ScreeningResponse>>)
    ensures r.Ok? ==>
      && GetCurrentUser(users, decode, token).Ok?
      && GetCurrentUser(users, decode, token).value.role == Admin
    ensures GetCurrentUser(users, decode, token).Fail? ==>
      r == Fail(GetCurrentUser(users, decode, token).error)
    ensures GetCurrentUser(users, decode, token).Ok? ==>
      r == if GetCurrentUser(users, decode, token).value.role == Admin
           then GetPatientScreenings(users, screenings, patientId)
           else Fail(AdminsOnly)
  {
    match GetCurrentUser(users, decode, token)
    case Fail(e) => Fail(e)
    case Ok(current) =>
      match GetCurrentAdmin(current)
      case Fail(e) => Fail(e)
      case Ok(_) => GetPatientScreenings(users, screenings, patientId)
  }

  /** A patient calling the admin listing gets 403 before any screening row is read. */
  lemma PatientRejectedBeforeStoreAccess(
    users: seq<User>, screenings: seq<ScreeningRecord>, other: seq<ScreeningRecord>,
    decode: string -> Option<Claims>, token: string, patientId: string)
    requires GetCurrentUser(users, decode, token).Ok?
    requires GetCurrentUser(users, decode, token).value.role == Patient
    ensures PatientScreeningsRoute(users, screenings, decode, token, patientId) == Fail(AdminsOnly)
    ensures PatientScreeningsRoute(users, screenings, decode, token, patientId)
         == PatientScreeningsRoute(users, other, decode, token, patientId)
  {
  }

  /** The dashboard counters. */
  datatype DashboardStats = DashboardStats(
    totalPatients: nat, totalScreenings: nat, highRiskCount: nat, recentScreenings7Days: nat)

  function IsPatientRow(u: User): bool { u.role == Patient }
  function IsAdminRow(u: User): bool { u.role == Admin }
  function IsHighRisk(s: ScreeningRecord): bool { s.riskLevel == "High" }

  /** `get_dashboard_stats`: four COUNT queries. `since` is the current date minus seven days. */
  function GetDashboardStats(users: seq<User>, screenings: seq<ScreeningRecord>, since: int): (r: DashboardStats)
    ensures r.totalScreenings == |screenings|
    ensures r.totalPatients <= |users|
    ensures r.highRiskCount <= r.totalScreenings
    ensures r.recentScreenings7Days <= r.totalScreenings
    ensures r.totalPatients == 0 <==> forall u :: u in users ==> u.role != Patient
    ensures r.totalPatients == |Filter(users, IsPatientRow)|
    ensures r.highRiskCount == |Filter(screenings, IsHighRisk)|
    ensures r.recentScreenings7Days == |Filter(screenings, (s: ScreeningRecord) => s.createdAt >= since)|
  {
    DashboardStats(
      Count(users, IsPatientRow),
      |screenings|,
      Count(screenings, IsHighRisk),
      Count(screenings, (s: ScreeningRecord) => s.createdAt >= since))
  }

  /** Every user row is counted as a patient or else is an admin. */
  lemma PatientsAndAdminsAreAllUsers(users: seq<User>, screenings: seq<ScreeningRecord>, since: int)
    ensures GetDashboardStats(users, screenings, since).totalPatients + Count(users, IsAdminRow) == |users|
  {
    CountPartition(users, IsPatientRow, IsAdminRow);
  }

  /** In a well-formed table the High count is the count of probabilities of at least 0.7. */
  lemma HighRiskCountIsHighProbabilityCount(users: seq<User>, screenings: seq<ScreeningRecord>, since: int)
    requires WellFormedScreenings(screenings)
    ensures GetDashboardStats(users, screenings, since).highRiskCount
         == Count(screenings, (s: ScreeningRecord) => s.strokeProbability >= 0.7)
  {
    CountAgreeing(screenings, IsHighRisk, (s: ScreeningRecord) => s.strokeProbability >= 0.7);
  }

  /** Widening the recency window never lowers the recent count. */
  lemma RecentCountMonotonic(users: seq<User>, screenings: seq<ScreeningRecord>, since: int, earlier: int)
    requires earlier <= since
    ensures GetDashboardStats(users, screenings, since).recentScreenings7Days
         <= GetDashboardStats(users, screenings, earlier).recentScreenings7Days
  {
    CountMonotonic(screenings, (s: ScreeningRecord) => s.createdAt >= since,
                   (s: ScreeningRecord) => s.createdAt >= earlier);
  }
}
