/**
 * The three tables of the clinic database as plain records.
 * Primary keys are positive integers handed out in insertion order; timestamps
 * are whatever the clock said, passed in by the caller.
 */
module Models {
  import opened Wrappers

  type Id = nat
  type Timestamp = int

  /** `role` is a free-text column; these are the values the application names. */
  const PatientRole: string := "patient"
  const DoctorRole: string := "doctor"
  const AdminRole: string := "admin"

  /** SQLite stores integers as signed 64-bit values; a larger Python int cannot be written. */
  predicate FitsInt64(n: int) {
    -0x8000_0000_0000_0000 <= n < 0x8000_0000_0000_0000
  }

  /** The documented appointment statuses. `Completed` is never assigned by any operation. */
  datatype Status = Pending | Confirmed | Declined | Completed

  /** A calendar date, as produced by the date parser. */
  datatype Date = Date(year: int, month: int, day: int)

  /** One submitted field after numeric coercion: a number, or the text it was. */
  datatype Value = Num(x: real) | Str(s: string)

  /** A positive-class probability. */
  type Probability = r: real | 0.0 <= r <= 1.0

  datatype User = User(
    id: Id,
    name: string,
    email: string,
    password: string,   // the stored hash, never the plaintext
    role: string,
    createdAt: Timestamp)

  datatype HealthRecord = HealthRecord(
    id: Id,
    userId: Id,
    data: map<string, Value>,   // the coerced submission (serialised to JSON in the database)
    prediction: Probability,
    createdAt: Timestamp)

  datatype Appointment = Appointment(
    id: Id,
    patientId: Id,
    doctorId: Option<int>,   // nullable column
    date: Date,
    time: string,
    status: Status,
    createdAt: Timestamp)

  /** A new user row; an omitted role takes the column default. */
  function NewUser(id: Id, name: string, email: string, password: string,
                   role: Option<string>, now: Timestamp): (u: User)
    ensures role.None? ==> u.role == PatientRole
    ensures role.Some? ==> u.role == role.value
    ensures u.id == id && u.name == name && u.email == email && u.password == password
    ensures u.createdAt == now
  {
    User(id, name, email, password, role.GetOr(PatientRole), now)
  }

  /** A new appointment row; an omitted status takes the column default. */
  function NewAppointment(id: Id, patientId: Id, doctorId: Option<int>, date: Date,
                          time: string, status: Option<Status>, now: Timestamp): (a: Appointment)
    ensures status.None? ==> a.status == Pending
    ensures status.Some? ==> a.status == status.value
    ensures a.id == id && a.patientId == patientId && a.doctorId == doctorId
    ensures a.date == date && a.time == time && a.createdAt == now
  {
    Appointment(id, patientId, doctorId, date, time, status.GetOr(Pending), now)
  }
}
