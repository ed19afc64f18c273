/**
 * The backend's stored records (users, doctors, specialties, appointments) as
 * in-memory tables keyed by id, the `.get()` lookup on a non-key field, the
 * responses the views send, and the database object the views update.
 */
module Records {
  import opened Wrappers
  import Dates

  datatype Role = ClientRole | AdminRole | DoctorRole

  /**
   * What `set_password(raw)` stores. Hashing is opaque here: two stored
   * passwords are equal exactly when the raw passwords were.
   */
  datatype PasswordHash = Hashed(raw: string)

  datatype User = User(
    email: string, firstName: string, lastName: string, adresse: string, gender: string,
    role: Role, password: PasswordHash, isActive: bool, isStaff: bool, isSuperuser: bool)

  datatype Doctor = Doctor(
    user: Option<int>, firstName: string, lastName: string, email: string, phone: string,
    specialization: Option<int>, consultationFee: int, bio: string)

  datatype Specialty = Specialty(name: string, description: string)

  /** `dateTime` is an instant on the local timeline, in seconds. */
  datatype Appointment = Appointment(doctor: int, client: int, dateTime: nat, status: string)

  /** The four tables and the next automatic id of each. */
  datatype Tables = Tables(
    users: map<int, User>, doctors: map<int, Doctor>,
    specialties: map<int, Specialty>, appointments: map<int, Appointment>,
    nextUserId: int, nextDoctorId: int, nextSpecialtyId: int, nextAppointmentId: int)
  {
    /** Ids are positive and below the next id, and every reference points at an existing row. */
    predicate Valid() {
      && 1 <= nextUserId && 1 <= nextDoctorId && 1 <= nextSpecialtyId && 1 <= nextAppointmentId
      && (forall id :: id in users ==> 1 <= id < nextUserId)
      && (forall id :: id in doctors ==> 1 <= id < nextDoctorId)
      && (forall id :: id in specialties ==> 1 <= id < nextSpecialtyId)
      && (forall id :: id in appointments ==> 1 <= id < nextAppointmentId)
      && (forall id :: id in doctors && doctors[id].user.Some? ==> doctors[id].user.value in users)
      && (forall id :: id in doctors && doctors[id].specialization.Some? ==> doctors[id].specialization.value in specialties)
      && (forall id :: id in appointments ==> appointments[id].doctor in doctors && appointments[id].client in users)
    }
  }

  /** The empty database with every id counter at 1. */
  function EmptyTables(): (t: Tables)
    ensures t.Valid()
  {
    Tables(map[], map[], map[], map[], 1, 1, 1, 1)
  }

  /** `Model.objects.create(...)` for a user: the row gets the next id. */
  function AddUser(t: Tables, u: User): (Tables, int) {
    (t.(users := t.users[t.nextUserId := u], nextUserId := t.nextUserId + 1), t.nextUserId)
  }

  function AddDoctor(t: Tables, d: Doctor): (Tables, int) {
    (t.(doctors := t.doctors[t.nextDoctorId := d], nextDoctorId := t.nextDoctorId + 1), t.nextDoctorId)
  }

  function AddSpecialty(t: Tables, s: Specialty): (Tables, int) {
    (t.(specialties := t.specialties[t.nextSpecialtyId := s], nextSpecialtyId := t.nextSpecialtyId + 1), t.nextSpecialtyId)
  }

  function AddAppointment(t: Tables, a: Appointment): (Tables, int) {
    (t.(appointments := t.appointments[t.nextAppointmentId := a], nextAppointmentId := t.nextAppointmentId + 1), t.nextAppointmentId)
  }

  /**
   * In a valid database a new user row never overwrites an existing one: the
   * table grows by exactly that row, the other tables are untouched, and the
   * database stays valid.
   */
  lemma AddUserIsFresh(t: Tables, u: User)
    requires t.Valid()
    ensures var (t1, id) := AddUser(t, u);
      && id !in t.users && t1.users == t.users[id := u] && |t1.users| == |t.users| + 1
      && t1.doctors == t.doctors && t1.specialties == t.specialties && t1.appointments == t.appointments
      && t1.Valid()
  {
  }

  /** A new doctor row is fresh, and the database stays valid when the row's user and specialty exist. */
  lemma AddDoctorIsFresh(t: Tables, d: Doctor)
    requires t.Valid()
    ensures var (t1, id) := AddDoctor(t, d);
      && id !in t.doctors && t1.doctors == t.doctors[id := d] && |t1.doctors| == |t.doctors| + 1
      && t1.users == t.users && t1.specialties == t.specialties && t1.appointments == t.appointments
      && ((d.user.Some? ==> d.user.value in t.users) && (d.specialization.Some? ==> d.specialization.value in t.specialties)
          ==> t1.Valid())
  {
  }

  /** A new specialty row is fresh, and the database stays valid. */
  lemma AddSpecialtyIsFresh(t: Tables, s: Specialty)
    requires t.Valid()
    ensures var (t1, id) := AddSpecialty(t, s);
      && id !in t.specialties && t1.specialties == t.specialties[id := s] && |t1.specialties| == |t.specialties| + 1
      && t1.users == t.users && t1.doctors == t.doctors && t1.appointments == t.appointments
      && t1.Valid()
  {
  }

  /** A new appointment row is fresh, and the database stays valid when its doctor and client exist. */
  lemma AddAppointmentIsFresh(t: Tables, a: Appointment)
    requires t.Valid()
    ensures var (t1, id) := AddAppointment(t, a);
      && id !in t.appointments && t1.appointments == t.appointments[id := a]
      && |t1.appointments| == |t.appointments| + 1
      && t1.users == t.users && t1.doctors == t.doctors && t1.specialties == t.specialties
      && (a.doctor in t.doctors && a.client in t.users ==> t1.Valid())
  {
  }

  // ---------------------------------------------------------------------------
  // `.get()` on a field that is not a key
  // ---------------------------------------------------------------------------

  /** The outcome of `.get()`: DoesNotExist, the one row, or MultipleObjectsReturned. */
  datatype Lookup = Missing | Found(id: int) | Ambiguous

  function Find(ids: set<int>): (r: Lookup)
    ensures r.Missing? <==> ids == {}
    ensures r.Found? ==> ids == {r.id}
    ensures r.Ambiguous? <==> exists x, y :: x in ids && y in ids && x != y
  {
    if exists x, y :: x in ids && y in ids && x != y then Ambiguous
    else if exists x :: x in ids then
      var x :| x in ids;
      Found(x)
    else Missing
  }

  function UsersWithEmail(t: Tables, email: string): set<int>
  {
    set id | id in t.users && t.users[id].email == email
  }

  function DoctorsWithEmail(t: Tables, email: string): set<int>
  {
    set id | id in t.doctors && t.doctors[id].email == email
  }

  function SpecialtiesNamed(t: Tables, name: string): set<int>
  {
    set id | id in t.specialties && t.specialties[id].name == name
  }

  /** `Doctor.objects.filter(specialization=specialty)`. */
  function DoctorsOfSpecialty(t: Tables, specialty: int): set<int>
  {
    set id | id in t.doctors && t.doctors[id].specialization == Some(specialty)
  }

  // ---------------------------------------------------------------------------
  // `str()` of a non-negative integer
  // ---------------------------------------------------------------------------

  function DecimalString(n: nat): (s: string)
    ensures |s| >= 1 && forall i :: 0 <= i < |s| ==> Dates.IsDigit(s[i])
    ensures n >= 10 ==> s[0] != '0'
  {
    if n < 10 then [Dates.DigitChar(n)] else DecimalString(n / 10) + [Dates.DigitChar(n % 10)]
  }

  /** `str()` of any integer. */
  function IntString(i: int): string {
    if i < 0 then "-" + DecimalString(-i) else DecimalString(i)
  }

  /** The number a string of decimal digits denotes. */
  function DecimalValue(s: string): (n: nat)
    requires forall i :: 0 <= i < |s| ==> Dates.IsDigit(s[i])
  {
    if s == [] then 0 else 10 * DecimalValue(s[..|s| - 1]) + Dates.DigitValue(s[|s| - 1])
  }

  lemma {:induction false} DecimalRoundTrip(n: nat)
    ensures DecimalValue(DecimalString(n)) == n
  {
    var s := DecimalString(n);
    if n >= 10 {
      assert s[..|s| - 1] == DecimalString(n / 10);
      DecimalRoundTrip(n / 10);
    }
  }

  /** `str()` of an integer starts with '-' exactly for a negative one, and its digits denote the magnitude. */
  lemma IntStringRoundTrip(i: int)
    ensures |IntString(i)| >= 1
    ensures IntString(i)[0] == '-' <==> i < 0
    ensures i >= 0 ==> Dates.IsDigit(IntString(i)[0]) && DecimalValue(IntString(i)) == i
    ensures i < 0 ==> var digits := IntString(i)[1..];
      (forall k :: 0 <= k < |digits| ==> Dates.IsDigit(digits[k])) && DecimalValue(digits) == -i
  {
    if i >= 0 {
      DecimalRoundTrip(i);
    } else {
      assert IntString(i)[1..] == DecimalString(-i);
      DecimalRoundTrip(-i);
    }
  }

  /** Two integers print the same exactly when they are equal. */
  lemma IntStringInjective(a: int, b: int)
    ensures IntString(a) == IntString(b) <==> a == b
  {
    if IntString(a) == IntString(b) {
      IntStringRoundTrip(a);
      IntStringRoundTrip(b);
    }
  }

  /** Different numbers print differently, so comparing `str()`s compares the numbers. */
  lemma DecimalStringInjective(a: nat, b: nat)
    ensures DecimalString(a) == DecimalString(b) <==> a == b
  {
    if DecimalString(a) == DecimalString(b) {
      DecimalRoundTrip(a);
      DecimalRoundTrip(b);
    }
  }

  // ---------------------------------------------------------------------------
  // Responses
  // ---------------------------------------------------------------------------

  /** What `RefreshToken.for_user(user)` yields, rendered as strings. */
  datatype Tokens = Tokens(refresh: string, access: string)

  datatype Body =
    | ErrorBody(error: string)
    | MessageBody(message: string)
    /** The 500 of an uncaught or generically caught exception. */
    | ServerError
    /** DRF's 404 for a missing object in a generic view. */
    | NotFound
    | NoContent
    /** Field name to messages, as `serializer.errors` lists them. */
    | Validation(errors: map<string, seq<string>>)
    | LoginBody(userId: int, user: User, tokens: Tokens)
    | DoctorLoginBody(doctorId: int, user: User, tokens: Tokens)
    | ToggleBody(message: string, isActive: bool)
    | DoctorBody(message: string, doctorId: int, doctor: Doctor, specialtyName: string, isActive: bool)
    | SpecialtyBody(id: int, name: string, doctorsCount: int)
    | StatsBody(totalPatients: int, todayAppointments: int, weekAppointments: int, completedAppointments: int)
    /** The create serializer's fields: id, doctor, date_time and status (the client is not returned). */
    | AppointmentBody(id: int, doctorId: int, dateTime: nat, status: string)

  datatype Response = Response(status: int, body: Body)

  /** A view's response together with the tables it leaves behind. */
  datatype Step = Step(response: Response, tables: Tables)

  /** The state the views read and write: one map per table and the id counters. */
  class Database {
    var users: map<int, User>
    var doctors: map<int, Doctor>
    var specialties: map<int, Specialty>
    var appointments: map<int, Appointment>
    var nextUserId: int
    var nextDoctorId: int
    var nextSpecialtyId: int
    var nextAppointmentId: int

    constructor ()
      ensures Snapshot() == EmptyTables()
    {
      users, doctors, specialties, appointments := map[], map[], map[], map[];
      nextUserId, nextDoctorId, nextSpecialtyId, nextAppointmentId := 1, 1, 1, 1;
    }

    function Snapshot(): Tables
      reads this
    {
      Tables(users, doctors, specialties, appointments, nextUserId, nextDoctorId, nextSpecialtyId, nextAppointmentId)
    }

    /** `user.save()` of a new user row; returns its id. */
    method InsertUser(u: User) returns (id: int)
      modifies this
      ensures (Snapshot(), id) == AddUser(old(Snapshot()), u)
    {
      id := nextUserId;
      users := users[id := u];
      nextUserId := id + 1;
    }

    method InsertDoctor(d: Doctor) returns (id: int)
      modifies this
      ensures (Snapshot(), id) == AddDoctor(old(Snapshot()), d)
    {
      id := nextDoctorId;
      doctors := doctors[id := d];
      nextDoctorId := id + 1;
    }

    method InsertSpecialty(s: Specialty) returns (id: int)
      modifies this
      ensures (Snapshot(), id) == AddSpecialty(old(Snapshot()), s)
    {
      id := nextSpecialtyId;
      specialties := specialties[id := s];
      nextSpecialtyId := id + 1;
    }

    method InsertAppointment(a: Appointment) returns (id: int)
      modifies this
      ensures (Snapshot(), id) == AddAppointment(old(Snapshot()), a)
    {
      id := nextAppointmentId;
      appointments := appointments[id := a];
      nextAppointmentId := id + 1;
    }
  }
}
