/**
 * The clinic's request handlers over an in-memory store of the three tables.
 * The logged-in user is an explicit parameter; hashing, password checks,
 * parsing and the trained classifier are passed in as functions.
 */
module Clinic {
  import opened Wrappers
  import opened Models
  import opened Requests
  import opened Emails
  import opened Alignment
  import opened Risk
  import opened Ledger

  /** The trained classifier: a feature vector to its positive-class probability. */
  type Classifier = seq<real> -> Probability

  /** Users have keys 1, 2, ... in order, and normalised, unique emails. */
  predicate UsersValid(users: seq<User>) {
    && (forall i | 0 <= i < |users| :: users[i].id == i + 1 && IsNormalized(users[i].email))
    && (forall i, j | 0 <= i < j < |users| :: users[i].email != users[j].email)
  }

  /** Health records have keys 1, 2, ... in order and belong to existing users. */
  predicate RecordsValid(records: seq<HealthRecord>, userCount: nat) {
    forall i | 0 <= i < |records| :: records[i].id == i + 1 && 1 <= records[i].userId <= userCount
  }

  /**
   * Appointments have keys 1, 2, ... in order, were requested by an existing
   * patient, and are never `Completed`. The doctor id is not constrained.
   */
  predicate AppointmentsValid(appointments: seq<Appointment>, users: seq<User>) {
    forall i | 0 <= i < |appointments| ::
      && appointments[i].id == i + 1
      && 1 <= appointments[i].patientId <= |users|
      && users[appointments[i].patientId - 1].role == PatientRole
      && appointments[i].status != Completed
  }

  /** Overwriting one status with anything but `Completed` keeps the ledger valid. */
  lemma StatusUpdateKeepsValid(appointments: seq<Appointment>, users: seq<User>, i: nat, s: Status)
    requires AppointmentsValid(appointments, users) && i < |appointments| && s != Completed
    ensures AppointmentsValid(appointments[i := appointments[i].(status := s)], users)
  {
  }

  /** Appending a user with the next key and a fresh normalised email keeps every table valid. */
  lemma AppendUserKeepsValid(users: seq<User>, records: seq<HealthRecord>,
                             appointments: seq<Appointment>, u: User)
    requires UsersValid(users) && RecordsValid(records, |users|) && AppointmentsValid(appointments, users)
    requires u.id == |users| + 1 && IsNormalized(u.email)
    requires forall w | w in users :: w.email != u.email
    ensures UsersValid(users + [u])
    ensures RecordsValid(records, |users + [u]|)
    ensures AppointmentsValid(appointments, users + [u])
  {
    var us := users + [u];
    forall i, j | 0 <= i < j < |us| ensures us[i].email != us[j].email {
      if j == |users| {
        assert us[i] in users;
      }
    }
    forall i | 0 <= i < |appointments|
      ensures us[appointments[i].patientId - 1] == users[appointments[i].patientId - 1]
    {
    }
  }

  /** Appending a patient's appointment with the next key keeps the ledger valid. */
  lemma AppendAppointmentKeepsValid(appointments: seq<Appointment>, users: seq<User>, a: Appointment)
    requires AppointmentsValid(appointments, users)
    requires a.id == |appointments| + 1 && 1 <= a.patientId <= |users|
    requires users[a.patientId - 1].role == PatientRole && a.status != Completed
    ensures AppointmentsValid(appointments + [a], users)
  {
  }

  /** A stored user sits at the position its key names. */
  lemma UserAtKey(users: seq<User>, u: User)
    requires UsersValid(users) && u in users
    ensures 1 <= u.id <= |users| && users[u.id - 1] == u
  {
    var i :| 0 <= i < |users| && users[i] == u;
  }

  /** With unique emails, two stored users with one email are the same user. */
  lemma EmailIdentifiesUser(users: seq<User>, u: User, w: User)
    requires UsersValid(users) && u in users && w in users && u.email == w.email
    ensures u == w
  {
    UserAtKey(users, u);
    UserAtKey(users, w);
  }

  /** `User.query.filter_by(email=email).first()` */
  function FindByEmail(users: seq<User>, email: string): (r: Option<User>)
    ensures r.Some? ==> r.value in users && r.value.email == email
    ensures r.None? ==> forall u | u in users :: u.email != email
  {
    if users == [] then None
    else if users[0].email == email then Some(users[0])
    else FindByEmail(users[1..], email)
  }

  /** The appointments a doctor's dashboard lists: those naming that doctor. */
  function ByDoctor(uid: Id): Appointment -> bool {
    (a: Appointment) => a.doctorId == Some(uid)
  }

  /** The appointments a patient's dashboard lists: their own. */
  function ByPatient(uid: Id): Appointment -> bool {
    (a: Appointment) => a.patientId == uid
  }

  /** The users offered as doctors when booking. */
  function IsDoctor(): User -> bool {
    (u: User) => u.role == DoctorRole
  }

  /** What the dashboard shows, by the caller's role. */
  datatype DashboardView =
    | DoctorView(appointments: seq<Appointment>)
    | PatientView(records: seq<HealthRecord>, appointments: seq<Appointment>,
                  doctors: seq<User>, lowRisk: nat, highRisk: nat)

  class Store {
    var users: seq<User>
    var records: seq<HealthRecord>
    var appointments: seq<Appointment>

    ghost predicate Valid()
      reads this
    {
      UsersValid(users) && RecordsValid(records, |users|) && AppointmentsValid(appointments, users)
    }

    /** An empty database. */
    constructor ()
      ensures Valid()
      ensures users == [] && records == [] && appointments == []
    {
      users, records, appointments := [], [], [];
    }

    /**
     * Registration: the email is normalised; a taken email is refused and
     * nothing is stored, otherwise exactly one user is appended. An omitted
     * role defaults to patient; any supplied role is accepted.
     */
    method Register(form: FormData, hash: string -> string, now: Timestamp) returns (res: Result<User, Error>)
      requires Valid()
      modifies this
      ensures Valid()
      ensures records == old(records) && appointments == old(appointments)
      ensures !("name" in form && "email" in form && "password" in form) ==>
                res == Err(BadRequest) && users == old(users)
      ensures "name" in form && "email" in form && "password" in form ==>
                var email := Normalize(form["email"]);
                if exists u | u in old(users) :: u.email == email then
                  res == Err(EmailTaken) && users == old(users)
                else
                  && res == Ok(NewUser(|old(users)| + 1, form["name"], email, hash(form["password"]),
                                       Some(if "role" in form then form["role"] else PatientRole), now))
                  && users == old(users) + [res.value]
    {
      if !("name" in form && "email" in form && "password" in form) {
        return Err(BadRequest);
      }
      var name := form["name"];
      var email := Normalize(form["email"]);
      var password := form["password"];
      var role := if "role" in form then form["role"] else PatientRole;
      if FindByEmail(users, email).Some? {
        return Err(EmailTaken);
      }
      var user := NewUser(|users| + 1, name, email, hash(password), Some(role), now);
      NormalizeIdempotent(form["email"]);
      AppendUserKeepsValid(users, records, appointments, user);
      users := users + [user];
      res := Ok(user);
    }

    /**
     * Login: the user whose normalised email matches, if the password checks
     * out against the stored hash; one generic failure otherwise.
     */
    function Login(form: FormData, verifies: (string, string) -> bool): (r: Result<User, Error>)
      requires Valid()
      reads this
      ensures !("email" in form && "password" in form) <==> r == Err(BadRequest)
      ensures r.Ok? ==>
                && r.value in users
                && r.value.email == Normalize(form["email"])
                && verifies(r.value.password, form["password"])
      ensures r.Ok? <==>
                && "email" in form && "password" in form
                && exists u | u in users && u.email == Normalize(form["email"]) :: verifies(u.password, form["password"])
      ensures r == Err(InvalidCredentials) <==>
                && "email" in form && "password" in form
                && forall u | u in users && u.email == Normalize(form["email"]) :: !verifies(u.password, form["password"])
    {
      if !("email" in form && "password" in form) then Err(BadRequest)
      else
        match FindByEmail(users, Normalize(form["email"]))
        case Some(u) =>
          if verifies(u.password, form["password"]) then Ok(u)
          else
            (forall w | w in users && w.email == Normalize(form["email"])
              ensures w == u { EmailIdentifiesUser(users, u, w); }
            Err(InvalidCredentials))
        case None => Err(InvalidCredentials)
    }

    /**
     * The dashboard: a doctor sees the appointments naming them; anyone else
     * sees their own records split at the 0.5 threshold, their appointments
     * and the list of doctors.
     */
    function Dashboard(me: User): (v: DashboardView)
      reads this
      ensures v.DoctorView? <==> me.role == DoctorRole
      ensures v.DoctorView? ==>
                && v.appointments == Filter(appointments, ByDoctor(me.id))
                && multiset(v.appointments) <= multiset(appointments)
                && (forall a | a in appointments :: multiset(v.appointments)[a] == if a.doctorId == Some(me.id) then multiset(appointments)[a] else 0)
                && (forall a :: a in v.appointments <==> a in appointments && a.doctorId == Some(me.id))
      ensures v.PatientView? ==>
                && v.records == RecordsOf(records, me.id)
                && multiset(v.records) <= multiset(records)
                && (forall h | h in records :: multiset(v.records)[h] == if h.userId == me.id then multiset(records)[h] else 0)
                && v.lowRisk + v.highRisk == |v.records|
                && v.lowRisk == |Filter(v.records, LowRisk())|
                && v.highRisk == |Filter(v.records, HighRisk())|
                && v.appointments == Filter(appointments, ByPatient(me.id))
                && (forall a | a in appointments :: multiset(v.appointments)[a] == if a.patientId == me.id then multiset(appointments)[a] else 0)
                && (forall a :: a in v.appointments <==> a in appointments && a.patientId == me.id)
                && v.doctors == Filter(users, IsDoctor())
                && (forall u | u in users :: multiset(v.doctors)[u] == if u.role == DoctorRole then multiset(users)[u] else 0)
                && (forall u :: u in v.doctors <==> u in users && u.role == DoctorRole)
    {
      if me.role == DoctorRole then
        FilterMultiplicity(appointments, ByDoctor(me.id));
        DoctorView(Filter(appointments, ByDoctor(me.id)))
      else
        var mine := RecordsOf(records, me.id);
        FilterMultiplicity(appointments, ByPatient(me.id));
        FilterMultiplicity(users, IsDoctor());
        RiskCountsPartition(mine);
        LowRiskCountIsFilter(mine);
        HighRiskCountIsFilter(mine);
        PatientView(mine,
                    Filter(appointments, ByPatient(me.id)),
                    Filter(users, IsDoctor()),
                    LowRiskCount(mine), HighRiskCount(mine))
    }

    /**
     * Risk scoring: refused, storing nothing, when the classifier or the column
     * list is absent; otherwise the classifier scores the aligned features and
     * exactly one record with the coerced submission is appended.
     */
    method Predict(me: User, raw: RawForm, model: Option<Classifier>, columns: Option<seq<string>>,
                   parse: string -> Option<real>, now: Timestamp) returns (res: Result<Probability, Error>)
      requires Valid() && me in users
      modifies this
      ensures Valid()
      ensures users == old(users) && appointments == old(appointments)
      ensures res.Err? <==> model.None? || columns.None?
      ensures res.Err? ==> res.error == ModelNotReady && records == old(records)
      ensures res.Ok? ==>
                && res.value == model.value(Features(Coerced(raw, parse), columns.value))
                && records == old(records) + [HealthRecord(|old(records)| + 1, me.id, Coerced(raw, parse), res.value, now)]
    {
      var form := CoerceForm(raw, parse);
      if columns.None? || model.None? {
        return Err(ModelNotReady);
      }
      var x := AlignForm(form, columns.value);
      var prob := model.value(x);
      UserAtKey(users, me);
      records := records + [HealthRecord(|records| + 1, me.id, form, prob, now)];
      res := Ok(prob);
    }

    /**
     * Booking: a request that fails validation changes nothing, and so does a
     * doctor id the database cannot hold; otherwise one pending appointment
     * from the caller to the requested doctor is appended.
     */
    method Book(me: User, form: FormData, parseInt: string -> Option<int>,
                parseDate: string -> Option<Date>, now: Timestamp) returns (res: Result<Appointment, Error>)
      requires Valid() && me in users
      modifies this
      ensures Valid()
      ensures users == old(users) && records == old(records)
      ensures var check := CheckBooking(me.role, form, parseInt, parseDate);
              check.Err? ==> res == Err(check.error) && appointments == old(appointments)
      ensures var check := CheckBooking(me.role, form, parseInt, parseDate);
              check.Ok? && !FitsInt64(check.value.doctorId) ==>
                res == Err(ServerError) && appointments == old(appointments)
      ensures var check := CheckBooking(me.role, form, parseInt, parseDate);
              check.Ok? && FitsInt64(check.value.doctorId) ==>
                && res == Ok(NewAppointment(|old(appointments)| + 1, me.id, Some(check.value.doctorId),
                                            check.value.date, check.value.time, Some(Pending), now))
                && appointments == old(appointments) + [res.value]
    {
      var check := CheckBooking(me.role, form, parseInt, parseDate);
      if check.Err? {
        return Err(check.error);
      }
      var b := check.value;
      if !FitsInt64(b.doctorId) {
        return Err(ServerError);   // the commit raises; nothing is stored
      }
      var appt := NewAppointment(|appointments| + 1, me.id, Some(b.doctorId), b.date, b.time, Some(Pending), now);
      UserAtKey(users, me);
      AppendAppointmentKeepsValid(appointments, users, appt);
      appointments := appointments + [appt];
      res := Ok(appt);
    }

    /** The doctor named on appointment `apptId` confirms it, whatever its status. */
    method Confirm(apptId: Id, me: User) returns (res: Result<Appointment, Error>)
      requires Valid()
      modifies this
      ensures Valid()
      ensures users == old(users) && records == old(records)
      ensures !FitsInt64(apptId) ==> res == Err(ServerError) && appointments == old(appointments)
      ensures FitsInt64(apptId) ==>
                var d := Decide(old(appointments), apptId, me, Confirmed);
                && (d.Err? ==> res == Err(d.error) && appointments == old(appointments))
                && (d.Ok? ==> appointments == d.value && res == Ok(appointments[apptId - 1]) && res.value.status == Confirmed)
    {
      if !FitsInt64(apptId) {
        return Err(ServerError); // the id does not fit SQLite's integer; the lookup raises
      }
      res := SetStatus(apptId, me, Confirmed);
    }

    /** The doctor named on appointment `apptId` declines it, whatever its status. */
    method Decline(apptId: Id, me: User) returns (res: Result<Appointment, Error>)
      requires Valid()
      modifies this
      ensures Valid()
      ensures users == old(users) && records == old(records)
      ensures !FitsInt64(apptId) ==> res == Err(ServerError) && appointments == old(appointments)
      ensures FitsInt64(apptId) ==>
                var d := Decide(old(appointments), apptId, me, Declined);
                && (d.Err? ==> res == Err(d.error) && appointments == old(appointments))
                && (d.Ok? ==> appointments == d.value && res == Ok(appointments[apptId - 1]) && res.value.status == Declined)
    {
      if !FitsInt64(apptId) {
        return Err(ServerError); // the id does not fit SQLite's integer; the lookup raises
      }
      res := SetStatus(apptId, me, Declined);
    }

    /** Look the appointment up, check the caller is its doctor, and overwrite its status. */
    method SetStatus(apptId: Id, me: User, s: Status) returns (res: Result<Appointment, Error>)
      requires Valid() && s != Completed
      modifies this
      ensures Valid()
      ensures users == old(users) && records == old(records)
      ensures var d := Decide(old(appointments), apptId, me, s);
              && (d.Err? ==> res == Err(d.error) && appointments == old(appointments))
              && (d.Ok? ==> appointments == d.value && res == Ok(appointments[apptId - 1]) && res.value.status == s)
    {
      var found := IndexOfId(appointments, apptId);
      if found.None? {
        return Err(NotFound);
      }
      var i := found.value;
      if !MayDecide(me, appointments[i]) {
        return Err(Unauthorized);
      }
      assert i == apptId - 1;
      StatusUpdateKeepsValid(appointments, users, i, s);
      appointments := appointments[i := appointments[i].(status := s)];
      res := Ok(appointments[i]);
    }
  }
}
