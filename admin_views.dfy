/**
 * The administrator's views over doctors and specialties
 * (backend/reservations/views.py): toggling a doctor's account, creating and
 * updating a doctor with their ordered guard checks, and creating and deleting
 * a specialty. Each view is a function from the tables to a `Step` (the
 * response and the tables after it) and a handler method that performs it on a
 * `Database`.
 */
module AdminViews {
  import opened Wrappers
  import opened Records

  const DoctorNotFound: string := "Médecin non trouvé"
  const LinkedUserNotFound: string := "Utilisateur associé non trouvé"
  const EmailTaken: string := "Un utilisateur avec cet email existe déjà"
  const SpecialtyNotFound: string := "Spécialité non trouvée"
  const DoctorCreated: string := "Médecin créé avec succès"
  const DoctorUpdated: string := "Médecin modifié avec succès"
  const SpecialtyNameRequired: string := "Le nom de la spécialité est requis"
  const SpecialtyExists: string := "Cette spécialité existe déjà"
  const SpecialtyDeleted: string := "Spécialité supprimée avec succès"

  function ToggleMessage(active: bool): string {
    "Médecin " + (if active then "activé" else "désactivé") + " avec succès"
  }

  function MissingFieldMessage(field: string): string {
    "Le champ " + field + " est obligatoire"
  }

  function SpecialtyInUseMessage(count: nat): string {
    "Impossible de supprimer cette spécialité. " + DecimalString(count) + " médecin(s) l'utilisent encore."
  }

  // ---------------------------------------------------------------------------
  // AdminDoctorToggleStatusView.patch
  // ---------------------------------------------------------------------------

  /**
   * Flips `is_active` of the doctor's user. An unknown doctor or a doctor
   * without a user gives 404; a user reference that names no row raises, which
   * is a 500.
   */
  function ToggleStatus(t: Tables, doctorId: int): (s: Step)
    ensures s.response.status == 200 <==> (doctorId in t.doctors && t.doctors[doctorId].user.Some?
      && t.doctors[doctorId].user.value in t.users)
    ensures s.response.status != 200 ==> s.tables == t
    ensures doctorId !in t.doctors ==> s.response == Response(404, ErrorBody(DoctorNotFound))
    ensures doctorId in t.doctors && t.doctors[doctorId].user.None? ==> s.response == Response(404, ErrorBody(LinkedUserNotFound))
    ensures s.response.status == 200 ==>
      var uid := t.doctors[doctorId].user.value;
      && s.tables == t.(users := t.users[uid := t.users[uid].(isActive := !t.users[uid].isActive)])
      && s.response.body == ToggleBody(ToggleMessage(!t.users[uid].isActive), !t.users[uid].isActive)
  {
    if doctorId !in t.doctors then Step(Response(404, ErrorBody(DoctorNotFound)), t)
    else
      var doctor := t.doctors[doctorId];
      if doctor.user.None? then Step(Response(404, ErrorBody(LinkedUserNotFound)), t)
      else if doctor.user.value !in t.users then Step(Response(500, ServerError), t)
      else
        var uid := doctor.user.value;
        var active := !t.users[uid].isActive;
        Step(Response(200, ToggleBody(ToggleMessage(active), active)),
             t.(users := t.users[uid := t.users[uid].(isActive := active)]))
  }

  /** Toggling twice gives the same answer twice over and restores the tables. */
  lemma ToggleTwiceRestores(t: Tables, doctorId: int)
    requires ToggleStatus(t, doctorId).response.status == 200
    ensures ToggleStatus(ToggleStatus(t, doctorId).tables, doctorId).response.status == 200
    ensures ToggleStatus(ToggleStatus(t, doctorId).tables, doctorId).tables == t
  {
    var uid := t.doctors[doctorId].user.value;
    var t1 := ToggleStatus(t, doctorId).tables;
    assert t1.doctors == t.doctors;
    assert t1.users[uid].(isActive := !t1.users[uid].isActive) == t.users[uid];
    assert t1.users[uid := t.users[uid]] == t.users;
  }

  /** Toggling changes nothing but the one flag, so a valid database stays valid. */
  lemma ToggleKeepsValid(t: Tables, doctorId: int)
    requires t.Valid()
    ensures ToggleStatus(t, doctorId).tables.Valid()
  {
  }

  method ToggleStatusView(db: Database, doctorId: int) returns (response: Response)
    modifies db
    ensures Step(response, db.Snapshot()) == ToggleStatus(old(db.Snapshot()), doctorId)
  {
    if doctorId !in db.doctors {
      return Response(404, ErrorBody(DoctorNotFound));
    }
    var doctor := db.doctors[doctorId];
    if doctor.user.None? {
      return Response(404, ErrorBody(LinkedUserNotFound));
    }
    var uid := doctor.user.value;
    if uid !in db.users {
      return Response(500, ServerError);
    }
    var user := db.users[uid];
    user := user.(isActive := !user.isActive);
    db.users := db.users[uid := user];
    response := Response(200, ToggleBody(ToggleMessage(user.isActive), user.isActive));
  }

  // ---------------------------------------------------------------------------
  // The doctor form and its required fields
  // ---------------------------------------------------------------------------

  /** The request body of a doctor create or update: its text fields and the fee, when given. */
  datatype DoctorForm = DoctorForm(text: map<string, string>, fee: Option<int>)

  const CreateRequired: seq<string> := ["first_name", "last_name", "email", "password", "specialization"]
  const UpdateRequired: seq<string> := ["first_name", "last_name", "email", "specialization"]

  /** `data.get(field)` is truthy: present and not the empty string. */
  predicate Given(form: DoctorForm, field: string) {
    field in form.text && form.text[field] != ""
  }

  /** `data[field]`, read once the field is known to be given. */
  function Text(form: DoctorForm, field: string): string {
    TextOr(form, field, "")
  }

  /** `data.get(field, default)`. */
  function TextOr(form: DoctorForm, field: string, default: string): string {
    if field in form.text then form.text[field] else default
  }

  /** The first required field that is missing or empty. */
  function FirstMissing(form: DoctorForm, fields: seq<string>): (r: Option<string>)
    ensures r.None? <==> forall i :: 0 <= i < |fields| ==> Given(form, fields[i])
    ensures r.Some? ==> exists i :: (0 <= i < |fields| && fields[i] == r.value && !Given(form, r.value)
      && forall j :: 0 <= j < i ==> Given(form, fields[j]))
  {
    if fields == [] then None
    else if !Given(form, fields[0]) then Some(fields[0])
    else
      var r := FirstMissing(form, fields[1..]);
      assert r.Some? ==> exists i :: (0 <= i < |fields| && fields[i] == r.value && !Given(form, r.value)
        && forall j :: 0 <= j < i ==> Given(form, fields[j])) by {
        if r.Some? {
          var i :| 0 <= i < |fields[1..]| && fields[1..][i] == r.value && !Given(form, r.value)
            && forall j :: 0 <= j < i ==> Given(form, fields[1..][j]);
          assert fields[i + 1] == fields[1..][i];
          forall j | 0 <= j < i + 1
            ensures Given(form, fields[j])
          {
            if j > 0 { assert fields[j] == fields[1..][j - 1]; }
          }
        }
      }
      r
  }

  /** The `for field in required_fields` loop with its early return. */
  method CheckRequired(form: DoctorForm, fields: seq<string>) returns (missing: Option<string>)
    ensures missing == FirstMissing(form, fields)
  {
    var i := 0;
    while i < |fields|
      invariant 0 <= i <= |fields|
      invariant FirstMissing(form, fields[i..]) == FirstMissing(form, fields)
    {
      assert fields[i..][0] == fields[i];
      if !Given(form, fields[i]) {
        return Some(fields[i]);
      }
      assert fields[i..][1..] == fields[i + 1..];
      i := i + 1;
    }
    assert fields[i..] == [];
    return None;
  }

  /** With no required field missing, each required field has a non-empty value. */
  lemma AllGiven(form: DoctorForm, fields: seq<string>, f: string)
    requires FirstMissing(form, fields).None? && f in fields
    ensures f in form.text && form.text[f] != ""
  {
    var i :| 0 <= i < |fields| && fields[i] == f;
  }

  // ---------------------------------------------------------------------------
  // AdminDoctorToggleStatusView.post: create a doctor
  // ---------------------------------------------------------------------------

  /** The user row `create_user` makes for a new doctor. */
  function DoctorUser(form: DoctorForm): User
  {
    User(Text(form, "email"), Text(form, "first_name"), Text(form, "last_name"), "", "",
         DoctorRole, Hashed(Text(form, "password")), true, false, false)
  }

  /** The doctor row linked to user `uid` and specialty `sid`, with phone '', fee 0 and bio '' by default. */
  function NewDoctor(form: DoctorForm, uid: int, sid: int): Doctor
  {
    Doctor(Some(uid), Text(form, "first_name"), Text(form, "last_name"), Text(form, "email"),
           TextOr(form, "phone", ""), Some(sid), form.fee.GetOr(0), TextOr(form, "bio", ""))
  }

  /**
   * The guards in order (a missing field, a taken email, an unknown or
   * ambiguous specialty name), then one new user and one new doctor.
   */
  function CreateDoctor(t: Tables, form: DoctorForm): (s: Step)
    ensures s.response.status in {201, 400, 500}
    ensures s.response.status != 201 ==> s.tables == t
    ensures FirstMissing(form, CreateRequired).Some? ==>
      s.response == Response(400, ErrorBody(MissingFieldMessage(FirstMissing(form, CreateRequired).value)))
    ensures FirstMissing(form, CreateRequired).None? && UsersWithEmail(t, Text(form, "email")) != {} ==>
      s.response == Response(400, ErrorBody(EmailTaken))
    ensures (FirstMissing(form, CreateRequired).None? && UsersWithEmail(t, Text(form, "email")) == {}
      && SpecialtiesNamed(t, Text(form, "specialization")) == {}) ==>
      s.response == Response(400, ErrorBody(SpecialtyNotFound))
    ensures s.response.status == 201 <==> (FirstMissing(form, CreateRequired).None?
      && UsersWithEmail(t, Text(form, "email")) == {}
      && Find(SpecialtiesNamed(t, Text(form, "specialization"))).Found?)
    ensures s.response.status == 201 ==>
      var sid := Find(SpecialtiesNamed(t, Text(form, "specialization"))).id;
      var doctor := NewDoctor(form, t.nextUserId, sid);
      && s.tables == t.(users := t.users[t.nextUserId := DoctorUser(form)], nextUserId := t.nextUserId + 1,
                        doctors := t.doctors[t.nextDoctorId := doctor], nextDoctorId := t.nextDoctorId + 1)
      && s.response.body == DoctorBody(DoctorCreated, t.nextDoctorId, doctor, t.specialties[sid].name, true)
  {
    match FirstMissing(form, CreateRequired)
    case Some(field) => Step(Response(400, ErrorBody(MissingFieldMessage(field))), t)
    case None =>
      if UsersWithEmail(t, Text(form, "email")) != {} then Step(Response(400, ErrorBody(EmailTaken)), t)
      else
        match Find(SpecialtiesNamed(t, Text(form, "specialization")))
        case Missing => Step(Response(400, ErrorBody(SpecialtyNotFound)), t)
        case Ambiguous => Step(Response(500, ServerError), t)
        case Found(sid) =>
          var user := DoctorUser(form);
          var (t1, uid) := AddUser(t, user);
          var doctor := NewDoctor(form, uid, sid);
          var (t2, did) := AddDoctor(t1, doctor);
          Step(Response(201, DoctorBody(DoctorCreated, did, doctor, t.specialties[sid].name, user.isActive)), t2)
  }

  /**
   * A successful create adds exactly one active user with role doctor and
   * exactly one doctor linked to it, with the phone, fee and bio defaults,
   * touches no other row, and keeps a valid database valid.
   */
  lemma CreateDoctorAddsOneUserAndOneDoctor(t: Tables, form: DoctorForm)
    requires t.Valid() && CreateDoctor(t, form).response.status == 201
    ensures var s := CreateDoctor(t, form);
      && t.nextUserId !in t.users && t.nextDoctorId !in t.doctors
      && s.tables.users.Keys == t.users.Keys + {t.nextUserId}
      && s.tables.doctors.Keys == t.doctors.Keys + {t.nextDoctorId}
      && s.tables.specialties == t.specialties && s.tables.appointments == t.appointments
      && (forall id :: id in t.users ==> s.tables.users[id] == t.users[id])
      && (forall id :: id in t.doctors ==> s.tables.doctors[id] == t.doctors[id])
      && s.tables.users[t.nextUserId].role == DoctorRole
      && s.tables.users[t.nextUserId].isActive
      && s.tables.doctors[t.nextDoctorId].user == Some(t.nextUserId)
      && s.tables.doctors[t.nextDoctorId].phone == TextOr(form, "phone", "")
      && s.tables.doctors[t.nextDoctorId].consultationFee == form.fee.GetOr(0)
      && s.tables.doctors[t.nextDoctorId].bio == TextOr(form, "bio", "")
      && s.tables.Valid()
  {
  }

  /**
   * The new user holds the form's names, email and hashed password and no
   * administrator flag; the new doctor holds the same names and email and
   * points at the specialty the form names.
   */
  lemma CreatedDoctorTakesTheForm(t: Tables, form: DoctorForm)
    requires CreateDoctor(t, form).response.status == 201
    ensures var s := CreateDoctor(t, form);
      var u := s.tables.users[t.nextUserId];
      var d := s.tables.doctors[t.nextDoctorId];
      && u.email == Text(form, "email") && u.firstName == Text(form, "first_name") && u.lastName == Text(form, "last_name")
      && u.password == Hashed(Text(form, "password")) && !u.isStaff && !u.isSuperuser
      && d.firstName == u.firstName && d.lastName == u.lastName && d.email == u.email
      && d.specialization.Some? && d.specialization.value in t.specialties
      && t.specialties[d.specialization.value].name == Text(form, "specialization")
  {
    var sid := Find(SpecialtiesNamed(t, Text(form, "specialization"))).id;
    assert sid in SpecialtiesNamed(t, Text(form, "specialization"));
  }

  method CreateDoctorView(db: Database, form: DoctorForm) returns (response: Response)
    modifies db
    ensures Step(response, db.Snapshot()) == CreateDoctor(old(db.Snapshot()), form)
  {
    var missing := CheckRequired(form, CreateRequired);
    if missing.Some? {
      return Response(400, ErrorBody(MissingFieldMessage(missing.value)));
    }
    if UsersWithEmail(db.Snapshot(), Text(form, "email")) != {} {
      return Response(400, ErrorBody(EmailTaken));
    }
    var specialty := Find(SpecialtiesNamed(db.Snapshot(), Text(form, "specialization")));
    if specialty.Missing? {
      return Response(400, ErrorBody(SpecialtyNotFound));
    } else if specialty.Ambiguous? {
      return Response(500, ServerError);
    }
    var sid := specialty.id;
    var specialtyName := db.specialties[sid].name;
    var user := DoctorUser(form);
    var uid := db.InsertUser(user);
    var doctor := NewDoctor(form, uid, sid);
    var did := db.InsertDoctor(doctor);
    response := Response(201, DoctorBody(DoctorCreated, did, doctor, specialtyName, user.isActive));
  }

  // ---------------------------------------------------------------------------
  // AdminDoctorToggleStatusView.put: update a doctor
  // ---------------------------------------------------------------------------

  /** The users other than the doctor's own that hold `email` (`exclude(id=None)` excludes nobody). */
  function OtherUsersWithEmail(t: Tables, doctor: Doctor, email: string): (ids: set<int>)
    ensures forall id :: id in ids <==> id in UsersWithEmail(t, email) && doctor.user != Some(id)
  {
    if doctor.user.Some? then UsersWithEmail(t, email) - {doctor.user.value} else UsersWithEmail(t, email)
  }

  /** The doctor row after an update with specialty `sid`: absent phone, fee and bio keep their values. */
  function UpdatedDoctor(doctor: Doctor, form: DoctorForm, sid: int): (r: Doctor)
    ensures r.user == doctor.user && r.specialization == Some(sid)
    ensures "phone" !in form.text ==> r.phone == doctor.phone
    ensures "bio" !in form.text ==> r.bio == doctor.bio
    ensures form.fee.None? ==> r.consultationFee == doctor.consultationFee
    ensures "phone" in form.text ==> r.phone == form.text["phone"]
    ensures "bio" in form.text ==> r.bio == form.text["bio"]
  {
    doctor.(firstName := Text(form, "first_name"), lastName := Text(form, "last_name"), email := Text(form, "email"),
            phone := TextOr(form, "phone", doctor.phone), specialization := Some(sid),
            consultationFee := form.fee.GetOr(doctor.consultationFee), bio := TextOr(form, "bio", doctor.bio))
  }

  /** Submitting the same form twice leaves the doctor as the first submission did. */
  lemma UpdatedDoctorIdempotent(doctor: Doctor, form: DoctorForm, sid: int)
    ensures UpdatedDoctor(UpdatedDoctor(doctor, form, sid), form, sid) == UpdatedDoctor(doctor, form, sid)
  {
  }

  /** The users table after the linked user, if any, takes the form's names and email. */
  function RenamedLinkedUser(t: Tables, doctor: Doctor, form: DoctorForm): map<int, User>
    requires doctor.user.Some? ==> doctor.user.value in t.users
  {
    if doctor.user.Some? then
      var uid := doctor.user.value;
      t.users[uid := t.users[uid].(firstName := Text(form, "first_name"), lastName := Text(form, "last_name"),
                                   email := Text(form, "email"))]
    else t.users
  }

  /** Whether the doctor's user reference names no row, so that reading it raises. */
  predicate DanglingUser(t: Tables, doctor: Doctor) {
    doctor.user.Some? && doctor.user.value !in t.users
  }

  /**
   * 404 for an unknown doctor, then the required fields, then the email taken
   * by another user, then the specialty; on success the linked user's names and
   * email follow the doctor's.
   */
  function UpdateDoctor(t: Tables, doctorId: int, form: DoctorForm): (s: Step)
    ensures s.response.status in {200, 400, 404, 500}
    ensures s.response.status != 200 ==> s.tables == t
    ensures doctorId !in t.doctors ==> s.response == Response(404, ErrorBody(DoctorNotFound))
    ensures doctorId in t.doctors && FirstMissing(form, UpdateRequired).Some? ==>
      s.response == Response(400, ErrorBody(MissingFieldMessage(FirstMissing(form, UpdateRequired).value)))
    ensures doctorId in t.doctors && FirstMissing(form, UpdateRequired).None? && DanglingUser(t, t.doctors[doctorId]) ==>
      s.response == Response(500, ServerError)
    ensures (doctorId in t.doctors && FirstMissing(form, UpdateRequired).None? && !DanglingUser(t, t.doctors[doctorId])
      && OtherUsersWithEmail(t, t.doctors[doctorId], Text(form, "email")) != {}) ==>
      s.response == Response(400, ErrorBody(EmailTaken))
    ensures (doctorId in t.doctors && FirstMissing(form, UpdateRequired).None? && !DanglingUser(t, t.doctors[doctorId])
      && OtherUsersWithEmail(t, t.doctors[doctorId], Text(form, "email")) == {}
      && SpecialtiesNamed(t, Text(form, "specialization")) == {}) ==>
      s.response == Response(400, ErrorBody(SpecialtyNotFound))
    ensures s.response.status == 200 <==>
      (&& doctorId in t.doctors && FirstMissing(form, UpdateRequired).None? && !DanglingUser(t, t.doctors[doctorId])
       && OtherUsersWithEmail(t, t.doctors[doctorId], Text(form, "email")) == {}
       && Find(SpecialtiesNamed(t, Text(form, "specialization"))).Found?)
    ensures s.response.status == 200 ==>
      var doctor := t.doctors[doctorId];
      var sid := Find(SpecialtiesNamed(t, Text(form, "specialization"))).id;
      var updated := UpdatedDoctor(doctor, form, sid);
      var users := RenamedLinkedUser(t, doctor, form);
      && s.tables == t.(users := users, doctors := t.doctors[doctorId := updated])
      && s.response.body == DoctorBody(DoctorUpdated, doctorId, updated, t.specialties[sid].name,
                                       if doctor.user.Some? then users[doctor.user.value].isActive else true)
  {
    if doctorId !in t.doctors then Step(Response(404, ErrorBody(DoctorNotFound)), t)
    else
      var doctor := t.doctors[doctorId];
      match FirstMissing(form, UpdateRequired)
      case Some(field) => Step(Response(400, ErrorBody(MissingFieldMessage(field))), t)
      case None =>
        if DanglingUser(t, doctor) then Step(Response(500, ServerError), t)
        else if OtherUsersWithEmail(t, doctor, Text(form, "email")) != {} then Step(Response(400, ErrorBody(EmailTaken)), t)
        else
          match Find(SpecialtiesNamed(t, Text(form, "specialization")))
          case Missing => Step(Response(400, ErrorBody(SpecialtyNotFound)), t)
          case Ambiguous => Step(Response(500, ServerError), t)
          case Found(sid) =>
            var users := RenamedLinkedUser(t, doctor, form);
            var updated := UpdatedDoctor(doctor, form, sid);
            var active := if doctor.user.Some? then users[doctor.user.value].isActive else true;
            Step(Response(200, DoctorBody(DoctorUpdated, doctorId, updated, t.specialties[sid].name, active)),
                 t.(users := users, doctors := t.doctors[doctorId := updated]))
  }

  /**
   * After an update the doctor row and its linked user agree on the names and
   * the email, the link and the account flags are kept, and no other user or
   * doctor changes.
   */
  lemma UpdateSyncsLinkedUser(t: Tables, doctorId: int, form: DoctorForm)
    requires UpdateDoctor(t, doctorId, form).response.status == 200
    ensures var t1 := UpdateDoctor(t, doctorId, form).tables;
      var d := t1.doctors[doctorId];
      && d.user == t.doctors[doctorId].user
      && d.firstName == Text(form, "first_name") && d.lastName == Text(form, "last_name") && d.email == Text(form, "email")
      && d.specialization.Some? && d.specialization.value in t.specialties
      && t.specialties[d.specialization.value].name == Text(form, "specialization")
      && t1.users.Keys == t.users.Keys && t1.doctors.Keys == t.doctors.Keys
      && (forall id :: id in t.doctors && id != doctorId ==> t1.doctors[id] == t.doctors[id])
      && (forall id :: id in t.users && Some(id) != d.user ==> t1.users[id] == t.users[id])
      && (d.user.Some? ==>
            var u := t1.users[d.user.value];
            && u.firstName == d.firstName && u.lastName == d.lastName && u.email == d.email
            && u.isActive == t.users[d.user.value].isActive && u.role == t.users[d.user.value].role
            && u.password == t.users[d.user.value].password)
  {
    var sid := Find(SpecialtiesNamed(t, Text(form, "specialization"))).id;
    assert sid in SpecialtiesNamed(t, Text(form, "specialization"));
  }

  /** A doctor may keep their own email: only other users holding it block the update. */
  lemma OwnEmailDoesNotBlock(t: Tables, doctorId: int, form: DoctorForm)
    requires doctorId in t.doctors && FirstMissing(form, UpdateRequired).None?
    requires t.doctors[doctorId].user.Some? && t.doctors[doctorId].user.value in t.users
    requires UsersWithEmail(t, Text(form, "email")) == {t.doctors[doctorId].user.value}
    requires Find(SpecialtiesNamed(t, Text(form, "specialization"))).Found?
    ensures UpdateDoctor(t, doctorId, form).response.status == 200
  {
    assert OtherUsersWithEmail(t, t.doctors[doctorId], Text(form, "email")) == {};
  }

  /** An update changes no key of any table, so a valid database stays valid. */
  lemma UpdateKeepsValid(t: Tables, doctorId: int, form: DoctorForm)
    requires t.Valid()
    ensures UpdateDoctor(t, doctorId, form).tables.Valid()
  {
  }

  method UpdateDoctorView(db: Database, doctorId: int, form: DoctorForm) returns (response: Response)
    modifies db
    ensures Step(response, db.Snapshot()) == UpdateDoctor(old(db.Snapshot()), doctorId, form)
  {
    if doctorId !in db.doctors {
      return Response(404, ErrorBody(DoctorNotFound));
    }
    var doctor := db.doctors[doctorId];
    var missing := CheckRequired(form, UpdateRequired);
    if missing.Some? {
      return Response(400, ErrorBody(MissingFieldMessage(missing.value)));
    }
    if DanglingUser(db.Snapshot(), doctor) {
      return Response(500, ServerError);
    }
    if OtherUsersWithEmail(db.Snapshot(), doctor, Text(form, "email")) != {} {
      return Response(400, ErrorBody(EmailTaken));
    }
    var specialty := Find(SpecialtiesNamed(db.Snapshot(), Text(form, "specialization")));
    if specialty.Missing? {
      return Response(400, ErrorBody(SpecialtyNotFound));
    } else if specialty.Ambiguous? {
      return Response(500, ServerError);
    }
    var sid := specialty.id;
    var active := true;
    if doctor.user.Some? {
      var uid := doctor.user.value;
      var user := db.users[uid];
      user := user.(firstName := Text(form, "first_name"));
      user := user.(lastName := Text(form, "last_name"));
      user := user.(email := Text(form, "email"));
      db.users := db.users[uid := user];
      active := user.isActive;
    }
    var updated := UpdatedDoctor(doctor, form, sid);
    db.doctors := db.doctors[doctorId := updated];
    response := Response(200, DoctorBody(DoctorUpdated, doctorId, updated, db.specialties[sid].name, active));
  }

  // ---------------------------------------------------------------------------
  // AdminSpecialtiesListView.post and AdminSpecialtyDetailView.delete
  // ---------------------------------------------------------------------------

  /** A missing or empty name and a name already in use give 400; otherwise one new specialty with no doctors. */
  function CreateSpecialty(t: Tables, name: Option<string>): (s: Step)
    ensures s.response.status == 201 <==> name.Some? && name.value != "" && SpecialtiesNamed(t, name.value) == {}
    ensures s.response.status != 201 ==> s.response.status == 400 && s.tables == t
    ensures name.None? || name == Some("") ==> s.response.body == ErrorBody(SpecialtyNameRequired)
    ensures name.Some? && name.value != "" && SpecialtiesNamed(t, name.value) != {} ==>
      s.response == Response(400, ErrorBody(SpecialtyExists))
    ensures s.response.status == 201 ==>
      && s.tables == t.(specialties := t.specialties[t.nextSpecialtyId := Specialty(name.value, "")],
                        nextSpecialtyId := t.nextSpecialtyId + 1)
      && s.response.body == SpecialtyBody(t.nextSpecialtyId, name.value, 0)
  {
    if name.None? || name.value == "" then Step(Response(400, ErrorBody(SpecialtyNameRequired)), t)
    else if SpecialtiesNamed(t, name.value) != {} then Step(Response(400, ErrorBody(SpecialtyExists)), t)
    else
      var (t1, id) := AddSpecialty(t, Specialty(name.value, ""));
      Step(Response(201, SpecialtyBody(id, name.value, 0)), t1)
  }

  /** Specialties created through this view never share a name, and a new one has no doctors. */
  lemma CreatedSpecialtyIsUniqueAndUnused(t: Tables, name: Option<string>)
    requires t.Valid() && CreateSpecialty(t, name).response.status == 201
    ensures SpecialtiesNamed(CreateSpecialty(t, name).tables, name.value) == {t.nextSpecialtyId}
    ensures DoctorsOfSpecialty(CreateSpecialty(t, name).tables, t.nextSpecialtyId) == {}
    ensures CreateSpecialty(t, name).tables.Valid()
  {
    var t1 := CreateSpecialty(t, name).tables;
    assert forall id :: id in t.doctors && t.doctors[id].specialization.Some? ==>
      t.doctors[id].specialization.value < t.nextSpecialtyId;
  }

  method CreateSpecialtyView(db: Database, name: Option<string>) returns (response: Response)
    modifies db
    ensures Step(response, db.Snapshot()) == CreateSpecialty(old(db.Snapshot()), name)
  {
    if name.None? || name.value == "" {
      return Response(400, ErrorBody(SpecialtyNameRequired));
    }
    if SpecialtiesNamed(db.Snapshot(), name.value) != {} {
      return Response(400, ErrorBody(SpecialtyExists));
    }
    var id := db.InsertSpecialty(Specialty(name.value, ""));
    response := Response(201, SpecialtyBody(id, name.value, 0));
  }

  /** 404 for an unknown id; 400 with the count while doctors use it; otherwise the row is removed. */
  function DeleteSpecialty(t: Tables, specialtyId: int): (s: Step)
    ensures specialtyId !in t.specialties ==> s.response == Response(404, ErrorBody(SpecialtyNotFound)) && s.tables == t
    ensures specialtyId in t.specialties && DoctorsOfSpecialty(t, specialtyId) != {} ==>
      s.response == Response(400, ErrorBody(SpecialtyInUseMessage(|DoctorsOfSpecialty(t, specialtyId)|))) && s.tables == t
    ensures s.response.status == 200 <==> specialtyId in t.specialties && DoctorsOfSpecialty(t, specialtyId) == {}
    ensures s.response.status == 200 ==> s.tables == t.(specialties := t.specialties - {specialtyId})
  {
    if specialtyId !in t.specialties then Step(Response(404, ErrorBody(SpecialtyNotFound)), t)
    else
      var count := |DoctorsOfSpecialty(t, specialtyId)|;
      if count > 0 then Step(Response(400, ErrorBody(SpecialtyInUseMessage(count))), t)
      else Step(Response(200, MessageBody(SpecialtyDeleted)), t.(specialties := t.specialties - {specialtyId}))
  }

  /** Deleting never leaves a doctor pointing at a removed specialty. */
  lemma DeleteSpecialtyKeepsValid(t: Tables, specialtyId: int)
    requires t.Valid()
    ensures DeleteSpecialty(t, specialtyId).tables.Valid()
  {
    if DeleteSpecialty(t, specialtyId).response.status == 200 {
      var t1 := DeleteSpecialty(t, specialtyId).tables;
      forall id | id in t1.doctors && t1.doctors[id].specialization.Some?
        ensures t1.doctors[id].specialization.value in t1.specialties
      {
        assert id !in DoctorsOfSpecialty(t, specialtyId);
      }
    }
  }

  method DeleteSpecialtyView(db: Database, specialtyId: int) returns (response: Response)
    modifies db
    ensures Step(response, db.Snapshot()) == DeleteSpecialty(old(db.Snapshot()), specialtyId)
  {
    if specialtyId !in db.specialties {
      return Response(404, ErrorBody(SpecialtyNotFound));
    }
    var count := |DoctorsOfSpecialty(db.Snapshot(), specialtyId)|;
    if count > 0 {
      return Response(400, ErrorBody(SpecialtyInUseMessage(count)));
    }
    db.specialties := db.specialties - {specialtyId};
    response := Response(200, MessageBody(SpecialtyDeleted));
  }
}
