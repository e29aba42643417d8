/**
 * The appointment ledger: validating a booking request and the doctor's
 * confirm/decline decision.
 */
module Ledger {
  import opened Wrappers
  import opened Models
  import opened Requests

  /** The validated fields of a booking request. */
  datatype Booking = Booking(doctorId: int, date: Date, time: string)

  /**
   * The checks `book` makes, in order: the caller must be a patient, doctor,
   * date and time must all be given, and the doctor id and the date must parse.
   * Whether the doctor exists is not checked.
   */
  function CheckBooking(role: string, form: FormData,
                        parseInt: string -> Option<int>,
                        parseDate: string -> Option<Date>): (r: Result<Booking, Error>)
    ensures r == Err(NotPatient) <==> role != PatientRole
    ensures r == Err(MissingFields) <==>
              role == PatientRole && !(Given(form, "doctor_id") && Given(form, "date") && Given(form, "time"))
    ensures r == Err(InvalidInput) <==>
              && role == PatientRole
              && Given(form, "doctor_id") && Given(form, "date") && Given(form, "time")
              && (parseInt(form["doctor_id"]).None? || parseDate(form["date"]).None?)
    ensures r.Ok? <==>
              && role == PatientRole
              && Given(form, "doctor_id") && Given(form, "date") && Given(form, "time")
              && parseInt(form["doctor_id"]).Some? && parseDate(form["date"]).Some?
    ensures r.Ok? ==>
              && parseInt(form["doctor_id"]) == Some(r.value.doctorId)
              && parseDate(form["date"]) == Some(r.value.date)
              && r.value.time == form["time"]
  {
    if role != PatientRole then Err(NotPatient)
    else if !(Given(form, "doctor_id") && Given(form, "date") && Given(form, "time")) then Err(MissingFields)
    else
      match (parseInt(form["doctor_id"]), parseDate(form["date"]))
      case (Some(d), Some(day)) => Ok(Booking(d, day, form["time"]))
      case _ => Err(InvalidInput)
  }

  /** The position of the appointment with primary key `id`, if any (`get_or_404`). */
  function IndexOfId(appointments: seq<Appointment>, id: Id): (r: Option<nat>)
    ensures r.Some? ==> r.value < |appointments| && appointments[r.value].id == id
    ensures r.None? ==> forall a | a in appointments :: a.id != id
  {
    if appointments == [] then None
    else if appointments[0].id == id then Some(0)
    else match IndexOfId(appointments[1..], id)
      case Some(i) => Some(i + 1)
      case None => None
  }

  /** The lookup depends on the primary keys alone. */
  lemma {:induction false} IndexOfIdSameKeys(a: seq<Appointment>, b: seq<Appointment>, id: Id)
    requires |a| == |b|
    requires forall j | 0 <= j < |a| :: a[j].id == b[j].id
    ensures IndexOfId(a, id) == IndexOfId(b, id)
  {
    if a != [] {
      IndexOfIdSameKeys(a[1..], b[1..], id);
    }
  }

  /** The authorization rule of confirm and decline: a doctor, named on the appointment. */
  predicate MayDecide(me: User, appt: Appointment): (ok: bool)
    // an appointment whose nullable doctor id is empty can be decided by nobody
    ensures ok ==> appt.doctorId.Some? && appt.doctorId.value == me.id
    ensures ok ==> me.role == DoctorRole
    ensures me.role == DoctorRole && appt.doctorId == Some(me.id) ==> ok
  {
    me.role == DoctorRole && appt.doctorId == Some(me.id)
  }

  /**
   * The ledger after `me` sets the status of appointment `id` to `s`. The
   * current status is not consulted, so a decided appointment can be decided again.
   */
  function Decide(appointments: seq<Appointment>, id: Id, me: User, s: Status): (r: Result<seq<Appointment>, Error>)
    ensures r == Err(NotFound) <==> IndexOfId(appointments, id).None?
    ensures r == Err(Unauthorized) <==>
              IndexOfId(appointments, id).Some? && !MayDecide(me, appointments[IndexOfId(appointments, id).value])
    ensures r.Ok? <==>
              IndexOfId(appointments, id).Some? && MayDecide(me, appointments[IndexOfId(appointments, id).value])
    ensures r.Ok? ==>
              var i := IndexOfId(appointments, id).value;
              && MayDecide(me, appointments[i])
              && |r.value| == |appointments|
              && r.value[i] == appointments[i].(status := s)
              && forall j | 0 <= j < |appointments| && j != i :: r.value[j] == appointments[j]
  {
    match IndexOfId(appointments, id)
    case None => Err(NotFound)
    case Some(i) =>
      if MayDecide(me, appointments[i]) then Ok(appointments[i := appointments[i].(status := s)])
      else Err(Unauthorized)
  }

  /** Deciding the same way twice leaves the ledger as deciding once. */
  lemma DecideIdempotent(appointments: seq<Appointment>, id: Id, me: User, s: Status)
    requires Decide(appointments, id, me, s).Ok?
    ensures Decide(Decide(appointments, id, me, s).value, id, me, s) == Decide(appointments, id, me, s)
  {
    var after := Decide(appointments, id, me, s).value;
    IndexOfIdSameKeys(appointments, after, id);
    var i := IndexOfId(appointments, id).value;
    assert after[i := after[i].(status := s)] == after;
  }

  /** A later decision by the named doctor overrides an earlier one, whatever it was. */
  lemma DecideOverrides(appointments: seq<Appointment>, id: Id, me: User, first: Status, second: Status)
    requires Decide(appointments, id, me, first).Ok?
    ensures Decide(Decide(appointments, id, me, first).value, id, me, second) == Decide(appointments, id, me, second)
  {
    var after := Decide(appointments, id, me, first).value;
    IndexOfIdSameKeys(appointments, after, id);
    var i := IndexOfId(appointments, id).value;
    assert after[i := after[i].(status := second)] == appointments[i := appointments[i].(status := second)];
  }

  /** Confirm and decline never produce the documented but unused `Completed` status. */
  lemma DecideNeverCompletes(appointments: seq<Appointment>, id: Id, me: User, s: Status)
    requires s == Confirmed || s == Declined
    requires forall a | a in appointments :: a.status != Completed
    ensures Decide(appointments, id, me, s).Ok? ==>
              forall a | a in Decide(appointments, id, me, s).value :: a.status != Completed
  {
  }

  /**
   * Doctor 7 confirms a pending appointment naming them; doctor 9 then tries
   * to confirm it and is refused, and the status stays confirmed.
   */
  lemma BookConfirmExample(patient: User, doctor7: User, doctor9: User)
    requires doctor7.id == 7 && doctor7.role == DoctorRole
    requires doctor9.id == 9 && doctor9.role == DoctorRole
    ensures var booked := [NewAppointment(1, patient.id, Some(7), Date(2024, 3, 1), "10:00", None, 0)];
            && booked[0].status == Pending
            && Decide(booked, 1, doctor7, Confirmed) == Ok([booked[0].(status := Confirmed)])
            && Decide(Decide(booked, 1, doctor7, Confirmed).value, 1, doctor9, Confirmed) == Err(Unauthorized)
  {
    var booked := [NewAppointment(1, patient.id, Some(7), Date(2024, 3, 1), "10:00", None, 0)];
    assert IndexOfId(booked, 1) == Some(0);
    assert booked[0 := booked[0].(status := Confirmed)] == [booked[0].(status := Confirmed)];
  }
}
