/**
 * Two views over appointments (backend/reservations/views.py): the doctor
 * dashboard's counts, whose week is Monday to Sunday around today, and the
 * delete view, whose queryset lets a superuser reach every appointment and
 * anyone else only their own.
 */
module AppointmentViews {
  import opened Wrappers
  import Dates
  import opened Records

  const DoctorNotFound: string := "Médecin non trouvé"
  const CompletedStatus: string := "terminé"

  // ---------------------------------------------------------------------------
  // DoctorDashboardStatsView.get
  // ---------------------------------------------------------------------------

  /** `Appointment.objects.filter(doctor=doctor)`. */
  function AppointmentsOf(t: Tables, doctorId: int): set<int> {
    set id | id in t.appointments && t.appointments[id].doctor == doctorId
  }

  /** `.values('client').distinct()` over the doctor's appointments. */
  function PatientsOf(t: Tables, doctorId: int): set<int> {
    set id | id in t.appointments && t.appointments[id].doctor == doctorId :: t.appointments[id].client
  }

  /** The doctor's appointments whose day lies in `[first, last]` (`date_time__date__range`). */
  function AppointmentsBetween(t: Tables, doctorId: int, first: int, last: int): (ids: set<int>)
    ensures ids <= AppointmentsOf(t, doctorId)
    ensures last < first ==> ids == {}
  {
    set id | id in AppointmentsOf(t, doctorId) && first <= Dates.DayOf(t.appointments[id].dateTime) <= last
  }

  /** Widening the range of days never loses an appointment. */
  lemma WiderRangeHoldsMore(t: Tables, doctorId: int, first: int, last: int, first': int, last': int)
    requires first' <= first && last <= last'
    ensures AppointmentsBetween(t, doctorId, first, last) <= AppointmentsBetween(t, doctorId, first', last')
  {
  }

  function CompletedOf(t: Tables, doctorId: int): (ids: set<int>)
    ensures ids <= AppointmentsOf(t, doctorId)
  {
    set id | id in AppointmentsOf(t, doctorId) && t.appointments[id].status == CompletedStatus
  }

  /**
   * The doctor is the one whose email is the requester's (none: 404, several:
   * 500). A week that runs past 9999-12-31 raises, which is a 500 as well.
   */
  function DoctorStats(t: Tables, email: string, today: int): (r: Response)
    requires 1 <= today <= Dates.MaxOrdinal
    ensures Find(DoctorsWithEmail(t, email)).Missing? ==> r == Response(404, ErrorBody(DoctorNotFound))
    ensures r.status == 200 <==> Find(DoctorsWithEmail(t, email)).Found? && Dates.WeekRange(today).Some?
    ensures r.status == 200 ==>
      var did := Find(DoctorsWithEmail(t, email)).id;
      var (start, end) := Dates.WeekRange(today).value;
      r.body == StatsBody(|PatientsOf(t, did)|, |AppointmentsBetween(t, did, today, today)|,
                          |AppointmentsBetween(t, did, start, end)|, |CompletedOf(t, did)|)
  {
    match Find(DoctorsWithEmail(t, email))
    case Missing => Response(404, ErrorBody(DoctorNotFound))
    case Ambiguous => Response(500, ServerError)
    case Found(did) =>
      match Dates.WeekRange(today)
      case None => Response(500, ServerError)
      case Some((start, end)) =>
        Response(200, StatsBody(|PatientsOf(t, did)|, |AppointmentsBetween(t, did, today, today)|,
                                |AppointmentsBetween(t, did, start, end)|, |CompletedOf(t, did)|))
  }

  lemma SubsetNoLarger(a: set<int>, b: set<int>)
    requires a <= b
    ensures |a| <= |b|
  {
    assert b == a + (b - a);
  }

  /** Distinct clients are never more than the appointments they come from. */
  lemma {:induction false} PatientsNoMoreThanAppointments(t: Tables, doctorId: int, ids: set<int>)
    requires ids <= AppointmentsOf(t, doctorId)
    ensures |set id | id in ids :: t.appointments[id].client| <= |ids|
    decreases |ids|
  {
    if exists x :: x in ids {
      var x :| x in ids;
      var rest := ids - {x};
      PatientsNoMoreThanAppointments(t, doctorId, rest);
      var image := set id | id in ids :: t.appointments[id].client;
      var restImage := set id | id in rest :: t.appointments[id].client;
      assert image <= restImage + {t.appointments[x].client};
      SubsetNoLarger(image, restImage + {t.appointments[x].client});
    } else {
      assert ids == {};
    }
  }

  /**
   * The dashboard's counts are consistent: today's appointments are among the
   * week's, and neither they nor the patients nor the completed ones outnumber
   * the doctor's appointments.
   */
  lemma StatsAreConsistent(t: Tables, email: string, today: int)
    requires 1 <= today <= Dates.MaxOrdinal && DoctorStats(t, email, today).status == 200
    ensures var b := DoctorStats(t, email, today).body;
      var did := Find(DoctorsWithEmail(t, email)).id;
      && b.todayAppointments <= b.weekAppointments <= |AppointmentsOf(t, did)|
      && b.completedAppointments <= |AppointmentsOf(t, did)|
      && b.totalPatients <= |AppointmentsOf(t, did)|
  {
    var did := Find(DoctorsWithEmail(t, email)).id;
    var (start, end) := Dates.WeekRange(today).value;
    WiderRangeHoldsMore(t, did, today, today, start, end);
    SubsetNoLarger(AppointmentsBetween(t, did, today, today), AppointmentsBetween(t, did, start, end));
    SubsetNoLarger(AppointmentsBetween(t, did, start, end), AppointmentsOf(t, did));
    SubsetNoLarger(CompletedOf(t, did), AppointmentsOf(t, did));
    PatientsNoMoreThanAppointments(t, did, AppointmentsOf(t, did));
    assert PatientsOf(t, did) == set id | id in AppointmentsOf(t, did) :: t.appointments[id].client;
  }

  // ---------------------------------------------------------------------------
  // AppointmentDeleteView
  // ---------------------------------------------------------------------------

  /** `get_queryset`: every appointment for a superuser, otherwise those whose client is the requester. */
  function DeletableAppointments(t: Tables, requester: int): (ids: set<int>)
    requires requester in t.users
    ensures t.users[requester].isSuperuser ==> ids == t.appointments.Keys
    ensures forall id :: id in ids <==>
      id in t.appointments && (t.users[requester].isSuperuser || t.appointments[id].client == requester)
  {
    if t.users[requester].isSuperuser then t.appointments.Keys
    else set id | id in t.appointments && t.appointments[id].client == requester
  }

  /** `destroy`: 404 outside the queryset, otherwise the row is removed and the answer is 204. */
  function DeleteAppointment(t: Tables, requester: int, id: int): (s: Step)
    requires requester in t.users
    ensures s.response.status == 204 <==> id in DeletableAppointments(t, requester)
    ensures s.response.status == 204 ==> s.tables == t.(appointments := t.appointments - {id})
    ensures s.response.status != 204 ==> s.response == Response(404, NotFound) && s.tables == t
  {
    if id in DeletableAppointments(t, requester) then
      Step(Response(204, NoContent), t.(appointments := t.appointments - {id}))
    else
      Step(Response(404, NotFound), t)
  }

  /** Someone who is not a superuser can never delete another client's appointment. */
  lemma OthersAppointmentsAreSafe(t: Tables, requester: int, id: int)
    requires requester in t.users && !t.users[requester].isSuperuser
    requires id in t.appointments && t.appointments[id].client != requester
    ensures DeleteAppointment(t, requester, id).tables == t
    ensures DeleteAppointment(t, requester, id).response.status == 404
  {
  }

  /** No table refers to an appointment, so deleting one keeps a valid database valid. */
  lemma DeleteAppointmentKeepsValid(t: Tables, requester: int, id: int)
    requires t.Valid() && requester in t.users
    ensures DeleteAppointment(t, requester, id).tables.Valid()
  {
  }

  method DeleteAppointmentView(db: Database, requester: int, id: int) returns (response: Response)
    requires requester in db.users
    modifies db
    ensures Step(response, db.Snapshot()) == DeleteAppointment(old(db.Snapshot()), requester, id)
  {
    if id !in DeletableAppointments(db.Snapshot(), requester) {
      return Response(404, NotFound);
    }
    db.appointments := db.appointments - {id};
    response := Response(204, NoContent);
  }
}
