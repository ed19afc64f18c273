/**
 * The request serializers of the reservations app
 * (backend/reservations/serializers.py): the availability validator of the
 * doctor serializer, the rule that an appointment lies in the future, user
 * creation with its admin flags, the partial user update, and appointment
 * creation, which always records the requesting user as the client.
 */
module Serializers {
  import opened Wrappers
  import Dates
  import opened Records

  // ---------------------------------------------------------------------------
  // DoctorSerializer.validate_availability
  // ---------------------------------------------------------------------------

  /** A decoded JSON value; an object keeps its keys in order. */
  datatype PyValue =
    | PyNone
    | PyBool(b: bool)
    | PyInt(i: int)
    | PyStr(s: string)
    | PyList(items: seq<PyValue>)
    | PyDict(entries: seq<(string, PyValue)>)

  const NotDictMessage: string := "Availability must be a dictionary."

  function InvalidDateMessage(key: string): string {
    "Invalid date format for " + key + ". Expected format: YYYY-MM-DD."
  }

  function NotListMessage(key: string): string {
    "Time slots for " + key + " should be a list."
  }

  function NotStringSlotMessage(key: string): string {
    "Each time slot for " + key + " should be a string."
  }

  /** A well-formed entry: a real date as key and a list of strings as value. */
  predicate IsGoodEntry(key: string, slots: PyValue) {
    && Dates.ParseIsoDate(key).Some?
    && slots.PyList?
    && forall k :: 0 <= k < |slots.items| ==> slots.items[k].PyStr?
  }

  /** The error one entry raises: the date is checked first, then the list, then its elements. */
  function EntryError(key: string, slots: PyValue): (r: Option<string>)
    ensures r.None? <==> IsGoodEntry(key, slots)
    ensures Dates.ParseIsoDate(key).None? ==> r == Some(InvalidDateMessage(key))
    ensures Dates.ParseIsoDate(key).Some? && !slots.PyList? ==> r == Some(NotListMessage(key))
    ensures Dates.ParseIsoDate(key).Some? && slots.PyList? && !IsGoodEntry(key, slots)
      ==> r == Some(NotStringSlotMessage(key))
  {
    if Dates.ParseIsoDate(key).None? then Some(InvalidDateMessage(key))
    else if !slots.PyList? then Some(NotListMessage(key))
    else if exists k :: 0 <= k < |slots.items| && !slots.items[k].PyStr? then Some(NotStringSlotMessage(key))
    else None
  }

  /** The error of the first bad entry, in key order. */
  function FirstEntryError(entries: seq<(string, PyValue)>): (r: Option<string>)
    ensures r.None? <==> forall i :: 0 <= i < |entries| ==> IsGoodEntry(entries[i].0, entries[i].1)
  {
    if entries == [] then None
    else
      match EntryError(entries[0].0, entries[0].1)
      case Some(m) => Some(m)
      case None =>
        assert forall i :: 1 <= i < |entries| ==> entries[i] == entries[1..][i - 1];
        FirstEntryError(entries[1..])
  }

  /** The error reported is that of an entry all of whose predecessors are good. */
  lemma {:induction false} FirstEntryErrorIsFirstBad(entries: seq<(string, PyValue)>)
    requires FirstEntryError(entries).Some?
    ensures exists i :: (0 <= i < |entries| && FirstEntryError(entries) == EntryError(entries[i].0, entries[i].1)
      && forall j :: 0 <= j < i ==> IsGoodEntry(entries[j].0, entries[j].1))
  {
    if EntryError(entries[0].0, entries[0].1).Some? {
      assert FirstEntryError(entries) == EntryError(entries[0].0, entries[0].1);
    } else {
      var rest := entries[1..];
      FirstEntryErrorIsFirstBad(rest);
      var i :| 0 <= i < |rest| && FirstEntryError(rest) == EntryError(rest[i].0, rest[i].1)
        && forall j :: 0 <= j < i ==> IsGoodEntry(rest[j].0, rest[j].1);
      assert entries[i + 1] == rest[i];
      forall j | 0 <= j < i + 1
        ensures IsGoodEntry(entries[j].0, entries[j].1)
      {
        if j > 0 { assert entries[j] == rest[j - 1]; }
      }
    }
  }

  /** One step of the scan: the entry at `i` reports, or the scan goes on with the rest. */
  lemma FirstEntryErrorStep(entries: seq<(string, PyValue)>, i: int)
    requires 0 <= i < |entries|
    ensures FirstEntryError(entries[i..]) ==
      (if EntryError(entries[i].0, entries[i].1).Some? then EntryError(entries[i].0, entries[i].1)
       else FirstEntryError(entries[i + 1..]))
  {
    assert entries[i..][0] == entries[i];
    assert entries[i..][1..] == entries[i + 1..];
  }

  /** What `validate_availability` returns or raises. */
  function AvailabilityVerdict(value: PyValue): (r: Result<PyValue, string>)
    ensures !value.PyDict? ==> r == Failure(NotDictMessage)
    ensures r.Success? ==> r.value == value
    ensures r.Success? <==> value.PyDict? && forall i :: 0 <= i < |value.entries| ==>
      IsGoodEntry(value.entries[i].0, value.entries[i].1)
  {
    if !value.PyDict? then Failure(NotDictMessage)
    else
      match FirstEntryError(value.entries)
      case Some(m) => Failure(m)
      case None => Success(value)
  }

  /** The loop over `value.items()` with its inner loop over the time slots. */
  method ValidateAvailability(value: PyValue) returns (r: Result<PyValue, string>)
    ensures r == AvailabilityVerdict(value)
  {
    if !value.PyDict? {
      return Failure(NotDictMessage);
    }
    var entries := value.entries;
    var i := 0;
    while i < |entries|
      invariant 0 <= i <= |entries|
      invariant FirstEntryError(entries[i..]) == FirstEntryError(entries)
    {
      var (key, slots) := entries[i];
      FirstEntryErrorStep(entries, i);
      if Dates.ParseIsoDate(key).None? {
        return Failure(InvalidDateMessage(key));
      }
      if !slots.PyList? {
        return Failure(NotListMessage(key));
      }
      var j := 0;
      while j < |slots.items|
        invariant 0 <= j <= |slots.items|
        invariant forall k :: 0 <= k < j ==> slots.items[k].PyStr?
      {
        if !slots.items[j].PyStr? {
          return Failure(NotStringSlotMessage(key));
        }
        j := j + 1;
      }
      i := i + 1;
    }
    assert entries[i..] == [];
    return Success(value);
  }

  /** The empty dictionary is accepted. */
  lemma EmptyAvailabilityAccepted()
    ensures AvailabilityVerdict(PyDict([])) == Success(PyDict([]))
  {
  }

  /** One entry with an impossible date rejects the whole value, naming that key, when every entry before it is good. */
  lemma BadDateIsReported(before: seq<(string, PyValue)>, key: string, slots: PyValue, after: seq<(string, PyValue)>)
    requires forall i :: 0 <= i < |before| ==> IsGoodEntry(before[i].0, before[i].1)
    requires Dates.ParseIsoDate(key).None?
    ensures AvailabilityVerdict(PyDict(before + [(key, slots)] + after)) == Failure(InvalidDateMessage(key))
  {
    var entries := before + [(key, slots)] + after;
    assert entries[|before|] == (key, slots);
    assert forall k :: 0 <= k < |before| ==> entries[k] == before[k];
    FirstEntryErrorIsFirstBad(entries);
    var i :| 0 <= i < |entries| && FirstEntryError(entries) == EntryError(entries[i].0, entries[i].1)
      && forall j :: 0 <= j < i ==> IsGoodEntry(entries[j].0, entries[j].1);
    assert !IsGoodEntry(entries[|before|].0, entries[|before|].1);
    assert i == |before|;
  }

  // ---------------------------------------------------------------------------
  // validate_date_time
  // ---------------------------------------------------------------------------

  const PastDateMessage: string := "Appointment date and time must be in the future."

  /** `if value < timezone.now(): raise ...`: now itself is accepted. */
  function ValidateDateTime(value: nat, now: nat): (r: Result<nat, string>)
    ensures r.Failure? <==> value < now
    ensures r.Failure? ==> r.error == PastDateMessage
    ensures r.Success? ==> r.value == value
  {
    if value < now then Failure(PastDateMessage) else Success(value)
  }

  // ---------------------------------------------------------------------------
  // UserSerializer.create
  // ---------------------------------------------------------------------------

  /** The validated fields of a registration; the optional ones may be absent. */
  datatype NewUserData = NewUserData(
    email: string, password: string, userRole: Role,
    firstName: Option<string>, lastName: Option<string>, adresse: Option<string>, gender: Option<string>)

  /** The user row `create` saves: model defaults, then the admin flags. */
  function NewUser(data: NewUserData): (u: User)
    ensures u.isSuperuser <==> data.userRole == AdminRole
    ensures u.isStaff <==> data.userRole == AdminRole
    ensures u.isActive && u.role == data.userRole && u.email == data.email
    ensures u.password == Hashed(data.password)
    ensures u.firstName == data.firstName.GetOr("") && u.lastName == data.lastName.GetOr("")
    ensures u.adresse == data.adresse.GetOr("") && u.gender == data.gender.GetOr("")
  {
    var u := User(data.email, data.firstName.GetOr(""), data.lastName.GetOr(""), data.adresse.GetOr(""),
                  data.gender.GetOr(""), data.userRole, Hashed(data.password), true, false, false);
    if data.userRole == AdminRole then u.(isSuperuser := true, isStaff := true) else u
  }

  /** `UserSerializer.create`: saves the user `NewUser` describes and returns its id. */
  method CreateUser(db: Database, data: NewUserData) returns (id: int)
    modifies db
    ensures (db.Snapshot(), id) == AddUser(old(db.Snapshot()), NewUser(data))
  {
    id := db.InsertUser(NewUser(data));
  }

  /** Creating a user keeps the database valid and adds exactly that one row. */
  lemma CreateUserKeepsValid(t: Tables, data: NewUserData)
    requires t.Valid()
    ensures AddUser(t, NewUser(data)).0.Valid()
    ensures AddUser(t, NewUser(data)).1 !in t.users
  {
  }

  // ---------------------------------------------------------------------------
  // UserUpdateSerializer.update
  // ---------------------------------------------------------------------------

  /**
   * The attributes `update` handles; `Password` goes through `set_password`.
   * The update serializer's fields do not include the password, so through
   * the profile update view no `Password` item ever arrives.
   */
  datatype UserAttr = FirstName | LastName | Email | Adresse | Gender | Password

  /** One step of the loop: `setattr(instance, attr, value)`, or `set_password(value)`. */
  function SetAttr(u: User, a: UserAttr, v: string): (r: User)
    ensures r.role == u.role && r.isActive == u.isActive && r.isStaff == u.isStaff && r.isSuperuser == u.isSuperuser
    ensures a != Password ==> r.password == u.password
  {
    match a
    case FirstName => u.(firstName := v)
    case LastName => u.(lastName := v)
    case Email => u.(email := v)
    case Adresse => u.(adresse := v)
    case Gender => u.(gender := v)
    case Password => u.(password := Hashed(v))
  }

  /** The user after the first `|items|` steps of the loop. */
  function Updated(u: User, items: seq<(UserAttr, string)>): (r: User)
    ensures r.role == u.role && r.isActive == u.isActive && r.isStaff == u.isStaff && r.isSuperuser == u.isSuperuser
    ensures (forall i :: 0 <= i < |items| ==> items[i].0 != Password) ==> r.password == u.password
  {
    if items == [] then u
    else
      var last := items[|items| - 1];
      var init := items[..|items| - 1];
      var before := Updated(u, init);
      assert forall i :: 0 <= i < |init| ==> init[i] == items[i];
      SetAttr(before, last.0, last.1)
  }

  /** The value an update supplies for an attribute: the last one given, if any. */
  function Supplied(items: seq<(UserAttr, string)>, a: UserAttr): (r: Option<string>)
    ensures r.None? <==> forall i :: 0 <= i < |items| ==> items[i].0 != a
  {
    if items == [] then None
    else if items[|items| - 1].0 == a then Some(items[|items| - 1].1)
    else
      assert forall i :: 0 <= i < |items| - 1 ==> items[..|items| - 1][i] == items[i];
      Supplied(items[..|items| - 1], a)
  }

  /** A supplied value is the value of the last item for that attribute. */
  lemma {:induction false} SuppliedIsLast(items: seq<(UserAttr, string)>, a: UserAttr)
    requires Supplied(items, a).Some?
    ensures exists i :: (0 <= i < |items| && items[i] == (a, Supplied(items, a).value)
      && forall j :: i < j < |items| ==> items[j].0 != a)
  {
    var n := |items| - 1;
    if items[n].0 == a {
      assert items[n] == (a, Supplied(items, a).value);
    } else {
      var p := items[..n];
      assert Supplied(items, a) == Supplied(p, a);
      SuppliedIsLast(p, a);
      var i :| 0 <= i < |p| && p[i] == (a, Supplied(p, a).value) && forall j :: i < j < |p| ==> p[j].0 != a;
      assert items[i] == p[i];
      forall j | i < j < |items|
        ensures items[j].0 != a
      {
        if j < n { assert items[j] == p[j]; }
      }
    }
  }

  /** `update` changes exactly the attributes supplied, each to its supplied value, and nothing else. */
  lemma {:induction false} UpdateChangesExactlySupplied(u: User, items: seq<(UserAttr, string)>)
    ensures Updated(u, items).firstName == Supplied(items, FirstName).GetOr(u.firstName)
    ensures Updated(u, items).lastName == Supplied(items, LastName).GetOr(u.lastName)
    ensures Updated(u, items).email == Supplied(items, Email).GetOr(u.email)
    ensures Updated(u, items).adresse == Supplied(items, Adresse).GetOr(u.adresse)
    ensures Updated(u, items).gender == Supplied(items, Gender).GetOr(u.gender)
    ensures Updated(u, items).password == (if Supplied(items, Password).Some? then Hashed(Supplied(items, Password).value) else u.password)
    ensures Updated(u, items).role == u.role && Updated(u, items).isActive == u.isActive
    ensures Updated(u, items).isStaff == u.isStaff && Updated(u, items).isSuperuser == u.isSuperuser
  {
    if items != [] {
      var p := items[..|items| - 1];
      UpdateChangesExactlySupplied(u, p);
      var w := Updated(u, p);
      var last := items[|items| - 1];
      assert Updated(u, items) == SetAttr(w, last.0, last.1);
      match last.0
      case FirstName => assert Supplied(items, FirstName) == Some(last.1);
      case LastName => assert Supplied(items, LastName) == Some(last.1);
      case Email => assert Supplied(items, Email) == Some(last.1);
      case Adresse => assert Supplied(items, Adresse) == Some(last.1);
      case Gender => assert Supplied(items, Gender) == Some(last.1);
      case Password => assert Supplied(items, Password) == Some(last.1);
    }
  }

  /** The loop of `update` over `validated_data.items()`, on the instance's field values. */
  method ApplyUpdate(u: User, items: seq<(UserAttr, string)>) returns (v: User)
    ensures v == Updated(u, items)
  {
    v := u;
    var i := 0;
    while i < |items|
      invariant 0 <= i <= |items|
      invariant v == Updated(u, items[..i])
    {
      var (attr, value) := items[i];
      assert items[..i + 1][..i] == items[..i];
      if attr == Password {
        v := v.(password := Hashed(value));
      } else {
        v := SetAttr(v, attr, value);
      }
      i := i + 1;
    }
    assert items[..i] == items;
  }

  /** `update` followed by `instance.save()` on the requesting user's row. */
  method SaveUpdate(db: Database, id: int, items: seq<(UserAttr, string)>)
    requires id in db.users
    modifies db
    ensures db.Snapshot() == old(db.Snapshot()).(users := old(db.users)[id := Updated(old(db.users)[id], items)])
  {
    var v := ApplyUpdate(db.users[id], items);
    db.users := db.users[id := v];
  }

  // ---------------------------------------------------------------------------
  // Appointment serializers: create
  // ---------------------------------------------------------------------------

  /** The fields of an appointment request; a `client` in it is read-only and never used. */
  datatype AppointmentData = AppointmentData(doctor: int, dateTime: nat, status: string, client: Option<int>)

  /** DRF's message for a primary key that names no row. */
  function NoSuchPkMessage(pk: int): string {
    "Invalid pk \"" + IntString(pk) + "\" - object does not exist."
  }

  /** The field errors of an appointment request: an unknown doctor, a date in the past. */
  function AppointmentErrors(t: Tables, data: AppointmentData, now: nat): (errors: map<string, seq<string>>)
    ensures "doctor" in errors <==> data.doctor !in t.doctors
    ensures "date_time" in errors <==> data.dateTime < now
    ensures "date_time" in errors ==> errors["date_time"] == [PastDateMessage]
    ensures errors.Keys <= {"doctor", "date_time"}
  {
    var doctorErrors := if data.doctor in t.doctors then map[] else map["doctor" := [NoSuchPkMessage(data.doctor)]];
    match ValidateDateTime(data.dateTime, now)
    case Failure(m) => doctorErrors["date_time" := [m]]
    case Success(_) => doctorErrors
  }

  /**
   * Validation, then `create` with `validated_data['client'] = request.user`:
   * 400 with the field errors and no change, or 201 and one new appointment.
   */
  function CreateAppointment(t: Tables, data: AppointmentData, requester: int, now: nat): (s: Step)
    ensures s.response.status == 201 <==> data.doctor in t.doctors && now <= data.dateTime
    ensures s.response.status != 201 ==> s.response.status == 400 && s.tables == t
    ensures s.response.status == 400 ==> s.response.body == Validation(AppointmentErrors(t, data, now))
    ensures s.response.status == 201 ==>
      && s.tables == t.(appointments := t.appointments[t.nextAppointmentId :=
                                          Appointment(data.doctor, requester, data.dateTime, data.status)],
                        nextAppointmentId := t.nextAppointmentId + 1)
      && s.response.body == AppointmentBody(t.nextAppointmentId, data.doctor, data.dateTime, data.status)
  {
    var errors := AppointmentErrors(t, data, now);
    if errors != map[] then Step(Response(400, Validation(errors)), t)
    else
      var a := Appointment(data.doctor, requester, data.dateTime, data.status);
      var (t', id) := AddAppointment(t, a);
      Step(Response(201, AppointmentBody(id, a.doctor, a.dateTime, a.status)), t')
  }

  /** The stored client is the requester, whatever client the request named. */
  lemma ClientIsTheRequester(t: Tables, data: AppointmentData, requester: int, now: nat)
    requires CreateAppointment(t, data, requester, now).response.status == 201
    ensures var s := CreateAppointment(t, data, requester, now);
      && s.tables.appointments[s.response.body.id].client == requester
      && s.tables.appointments[s.response.body.id].doctor == data.doctor
      && (data.client.Some? && data.client.value != requester ==>
            s.tables.appointments[s.response.body.id].client != data.client.value)
  {
  }

  /** A created appointment by an existing user keeps the database valid. */
  lemma CreateAppointmentKeepsValid(t: Tables, data: AppointmentData, requester: int, now: nat)
    requires t.Valid() && requester in t.users
    ensures CreateAppointment(t, data, requester, now).tables.Valid()
  {
  }

  /** The create view: validate, then save with the requester as client. */
  method CreateAppointmentView(db: Database, data: AppointmentData, requester: int, now: nat) returns (response: Response)
    modifies db
    ensures Step(response, db.Snapshot()) == CreateAppointment(old(db.Snapshot()), data, requester, now)
  {
    var errors := AppointmentErrors(db.Snapshot(), data, now);
    if errors != map[] {
      return Response(400, Validation(errors));
    }
    var a := Appointment(data.doctor, requester, data.dateTime, data.status);
    var id := db.InsertAppointment(a);
    response := Response(201, AppointmentBody(id, a.doctor, a.dateTime, a.status));
  }
}
