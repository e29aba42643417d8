/** What a request handler can report instead of succeeding. */
module Requests {

  /** A submitted HTML form: field name to text. */
  type FormData = map<string, string>

  datatype Error =
    | BadRequest           // a required form field is missing
    | EmailTaken           // "Email already registered"
    | InvalidCredentials   // "Invalid credentials."
    | ModelNotReady        // "Prediction model not ready. Train model first."
    | NotPatient           // "Only patients can book appointments."
    | MissingFields        // "Please select doctor, date, and time."
    | InvalidInput         // "Invalid date or doctor selection."
    | NotFound             // no appointment with the requested id
    | Unauthorized         // "Unauthorized."
    | ServerError          // an uncaught exception while writing to the database

  /** `form.get(key)` is truthy: the field is present and not empty. */
  predicate Given(form: FormData, key: string): (given: bool)
    ensures given ==> key in form && |form[key]| > 0
    ensures key in form && |form[key]| > 0 ==> given
  {
    key in form && form[key] != ""
  }
}
