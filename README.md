# Health-Track clinic core in Dafny

A model of the request-handling core of a small clinic web application.
Patients register, submit health metrics that a pre-trained classifier turns
into a risk probability, and book appointments. Doctors confirm or decline
the appointments that name them.

The model keeps the application's logic and drops the web framework, the ORM
and the numeric libraries:

- `models.dfy` (module `Models`): the `users`, `healthdata` and `appointments`
  rows as datatypes, with the column defaults. A new user's role defaults to
  `patient`; a new appointment's status defaults to `pending`.
- `emails.dfy` (module `Emails`): the email normalisation used by registration
  and login, `email.lower().strip()`.
- `alignment.dfy` (module `Alignment`): feature alignment for the risk model.
  A loop coerces every form field to a number where `float()` accepts it.
  One-hot expansion follows. A second loop adds every trained column the row
  lacks with value 0. Last, the columns are selected in trained order. The
  loop-and-select pipeline is proved equal to a recursive reference layout,
  `Aligned`.
- `risk.dfy` (module `Risk`): the patient dashboard's low/high risk counts at
  threshold 0.5.
- `ledger.dfy` (module `Ledger`): booking validation and the confirm/decline
  rule as pure functions.
- `requests.dfy` (module `Requests`): the error outcomes the handlers report,
  and the truthiness test `form.get(key)` applies to a form field.
- `clinic.dfy` (module `Clinic`): class `Store`. It holds the three tables as
  sequences, keeps their invariants in `Valid()`, and has one method per
  state-changing handler: `Register`, `Predict`, `Book`, `Confirm`, `Decline`.
  The read-only handlers, `Login` and `Dashboard`, are functions.

`Store.Valid()` holds the table invariants that every handler keeps:

- Keys are 1, 2, … in insertion order.
- Every stored email is normalised and no two users share one.
- Every health record's `user_id` names a stored user.
- Every appointment's `patient_id` names a stored user whose role is `patient`.
- No appointment is `Completed`.
- `doctor_id` is left unconstrained, as the nullable column is.

The logged-in user is an explicit parameter. Password hashing, password
checks, `float()`, `int()`, `datetime.fromisoformat`, the clock and the
trained classifier are passed in as functions or values. The two trained
artifacts, the classifier and its column list, are each an `Option`. At
start-up (app.py:30-32) both are loaded when both files exist and neither
otherwise, so in practice both are `None` or neither is. `Predict` takes the
two separately because the handler tests each one (app.py:139).

The code behaves as follows where a reader might expect otherwise:

- Booking does not check that the requested doctor exists (app.py:186-193).
  Any parsed id that fits SQLite's signed 64-bit integers is stored. A larger
  one makes the commit raise, and nothing is stored.
- Confirm and decline look the id up with `get_or_404` (app.py:205,
  app.py:218). An id beyond SQLite's signed 64-bit integers makes the lookup
  raise, which answers a server error rather than not-found.
- Confirm and decline do not look at the current status (app.py:205-209,
  app.py:218-222). The named doctor can overwrite a decision, for example
  confirm after decline (`Ledger.DecideOverrides`).
- The stored health record holds the submission after numeric coercion
  (app.py:133-137, app.py:151), although the column comment at models.py:21
  calls it the raw inputs.
- Registration stores any role string the form supplies (app.py:55). The
  comment at models.py:14 names only patient, doctor and admin.

## Model

| member | source | states |
|---|---|---|
| `Models.NewUser` | models.py:8-15 | a new user carries the given fields; an omitted role becomes `patient` |
| `Models.NewAppointment` | models.py:25-33 | a new appointment carries the given fields; an omitted status becomes `Pending` |
| `Emails.Lower` | app.py:53 | same length, each character lower-cased |
| `Emails.Strip` | app.py:53 | the result is the input minus leading whitespace and trailing whitespace; its ends are not whitespace; an all-whitespace input gives the empty string |
| `Emails.Normalize` | app.py:53 | a normalised email contains no upper-case letter and has no surrounding whitespace |
| `Emails.NormalizeIdempotent` | app.py:53 | normalising a normalised email changes nothing |
| `Emails.CaseDuplicate` | app.py:53-58 | `A@x.com` and `a@x.com` normalise to the same stored email |
| `Alignment.Coerce` | app.py:134-137 | a value `float()` parses becomes that number; any other value keeps its text |
| `Alignment.Coerced` | app.py:131-137 | same fields as the form; a field `float()` parses becomes its number, any other keeps its text |
| `Alignment.CoerceForm` | app.py:133-137 | the in-place coercion loop yields exactly `Coerced` of the form |
| `Alignment.GetDummies` | app.py:142-143 | the row's columns are the numeric fields plus one `field_value` dummy per text field; dummies hold 1, numeric fields keep their number, and no text field survives under its own name |
| `Alignment.Aligned` | app.py:144-148 | the vector has one entry per trained column; entry i is the row's value for column i, or 0 when the row lacks it |
| `Alignment.Features` | app.py:142-148 | the vector has one entry per trained column: 1 for a dummy of the form, the number for a numeric field that is not also a dummy name, 0 otherwise |
| `Alignment.FillMissing` | app.py:145-147 | after the padding loop every trained column is present; original columns keep their values; only trained columns are added, each with 0 |
| `Alignment.Select` | app.py:148 | `df[columns]` has one entry per listed column, in list order |
| `Alignment.AlignForm` | app.py:142-148 | expansion, padding and selection yield the reference vector `Features`: exactly one entry per column, in order, with 0 for each missing column |
| `Alignment.ExtraColumnIgnored` | app.py:145-148 | adding a column that is not trained leaves the vector unchanged |
| `Alignment.DummySetOfNewField` | app.py:143 | a new text field adds exactly its own dummy name |
| `Alignment.NewFieldColumn` | app.py:143 | after adding a text field, its dummy column holds 1 and every other column holds what it held before |
| `Alignment.DummiesOfNewField` | app.py:143 | a new text field adds its dummy column with value 1 and changes no other column |
| `Alignment.UnseenCategoryIgnored` | app.py:143-148 | a text field whose dummy column was never trained gives the same vector as omitting the field |
| `Alignment.UnseenRawCategoryIgnored` | app.py:133-148 | the same for a raw submission field that does not parse as a number |
| `Alignment.IntakeCoerced` | app.py:133-137 | the intake `{age: "45", sex: "M", cp: "typical"}` coerces to one number and two texts |
| `Alignment.IntakeExpanded` | app.py:142-143 | that intake expands to `age`, `sex_M` and `cp_typical` |
| `Alignment.IntakeAligned` | app.py:144-148 | against `[age, sex_M, cp_typical, cp_atypical]` that row gives `[45, 1, 1, 0]` |
| `Alignment.IntakeExample` | app.py:133-148 | the whole pipeline maps the intake to `[45, 1, 1, 0]` |
| `Risk.Filter` | app.py:111 | the result holds exactly the elements that satisfy the condition, and is no longer than the input |
| `Risk.FilterMultiplicity` | app.py:111 | the filtered sequence is a sub-multiset of the input; each element that satisfies the condition appears as often as in the input |
| `Risk.FilterAppend` | app.py:111 | filtering a sequence extended by one element extends the filtered sequence by that element exactly when it satisfies the condition |
| `Risk.RecordsOf` | app.py:111 | exactly the stored records owned by the user, each as often as it is stored |
| `Risk.LowRiskCount` | app.py:112 | the generator sum over predictions below 0.5: at most the number of records, and 0 when every prediction is at least 0.5 |
| `Risk.HighRiskCount` | app.py:113 | the generator sum over predictions of at least 0.5: at most the number of records, and 0 when every prediction is below 0.5 |
| `Risk.RiskCountsPartition` | app.py:112-113 | low count plus high count is the number of records |
| `Risk.LowRiskCountIsFilter` | app.py:112 | the low count is the number of records with prediction below 0.5 |
| `Risk.HighRiskCountIsFilter` | app.py:113 | the high count is the number of records with prediction at least 0.5 |
| `Risk.RiskCountsAppend` | app.py:112-113 | one more record adds one to the high count exactly when its prediction is at least 0.5, and to the low count otherwise |
| `Risk.NewRecordShiftsCounts` | app.py:111-113 | storing a record shifts only its owner's counts, by one, on its side of the threshold |
| `Ledger.CheckBooking` | app.py:165-184 | refused as not-a-patient exactly when the role is not `patient`; as missing fields exactly when doctor, date or time is absent or empty; as invalid exactly when the doctor id or the date does not parse; accepted exactly when none of these holds, returning the parsed doctor id, the parsed date and the time text |
| `Ledger.IndexOfId` | app.py:205 | a found position holds the appointment with that key; not found means no appointment has that key |
| `Ledger.IndexOfIdSameKeys` | app.py:205 | the lookup depends only on the keys, so a status change does not move it |
| `Ledger.MayDecide` | app.py:206 | exactly the doctor named on the appointment may decide it; an appointment with no doctor id can be decided by nobody |
| `Ledger.Decide` | app.py:205-209 | not found exactly when no appointment has the id; unauthorized exactly when the caller is not a doctor named on it; succeeds exactly when the named doctor decides, and then only that appointment's status changes, to the requested one |
| `Ledger.DecideIdempotent` | app.py:205-209 | confirming (or declining) twice leaves the ledger as doing it once |
| `Ledger.DecideOverrides` | app.py:205-222 | a second decision by the named doctor replaces the first, whatever it was |
| `Ledger.DecideNeverCompletes` | app.py:209-222 | confirm and decline never produce `Completed` |
| `Ledger.BookConfirmExample` | app.py:187-222 | a pending appointment for doctor 7 is confirmed by doctor 7; doctor 9 is then refused and it stays confirmed |
| `Requests.Given` | app.py:175 | a field counts as given exactly when it is present and not empty |
| `Clinic.StatusUpdateKeepsValid` | app.py:209 | overwriting one status with anything but `Completed` keeps the ledger invariant |
| `Clinic.UserAtKey` | models.py:10 | a stored user sits at the position its key names |
| `Clinic.EmailIdentifiesUser` | models.py:12 | with unique emails, one email identifies one stored user |
| `Clinic.FindByEmail` | app.py:56 | a found user is stored and has the email; none found means no stored user has it |
| `Clinic.Store.constructor` | app.py:40-42 | the tables start empty and valid |
| `Clinic.Store.Register` | app.py:50-63 | a missing field is a bad request; the stored email is the lower-cased, trimmed input; a taken email leaves the users unchanged; otherwise exactly one user is appended, with role `patient` unless the form gives one; unique emails are preserved |
| `Clinic.Store.Login` | app.py:68-79 | a missing field is a bad request; the login succeeds exactly when a stored user with the normalised email has a hash that verifies, and returns that user; the single failure means no such user verifies |
| `Clinic.Store.Dashboard` | app.py:93-124 | a doctor sees the appointments naming them, in stored order and each as often as it is stored; anyone else sees `RecordsOf` their id, so each of their records as often as it is stored, with low plus high equal to that number and each side counting its records; also their own appointments and the doctors, each list in stored order with every row once per stored copy |
| `Clinic.Store.Predict` | app.py:129-155 | refused with nothing stored exactly when the classifier or the column list is absent; otherwise the probability is the classifier on the aligned features, and exactly one record is appended holding the caller's id, the coerced form and that probability |
| `Clinic.Store.Book` | app.py:163-198 | a refused booking leaves the appointments unchanged, and so does a doctor id outside SQLite's 64-bit range; otherwise exactly one pending appointment from the caller to the parsed doctor id is appended; only patients' bookings are stored |
| `Clinic.Store.Confirm` | app.py:204-212 | an id beyond SQLite's 64-bit range is a server error and changes nothing; otherwise the ledger becomes `Decide(..., Confirmed)`: only the named doctor changes anything, and only that appointment's status |
| `Clinic.Store.Decline` | app.py:217-225 | an id beyond SQLite's 64-bit range is a server error and changes nothing; otherwise the ledger becomes `Decide(..., Declined)` with the same authorization rule |
| `Clinic.Store.SetStatus` | app.py:205-209 | the lookup, authorization and in-place status update shared by confirm and decline: the ledger becomes `Decide(..., s)`, every invariant is kept and `Completed` is never written; the callers check the id's width first |

## Left out

- Flask routing, templates, `flash` and `redirect`: each handler returns a `Result`, and its `Error` names the message shown. The GET branches that only render forms are not modelled.
- Sessions and `flask_login` (`load_user`, `logout`, `session['user_id']`): the current user is a parameter. `Predict` and `Book` require it to be a stored user, because they store rows that point at it. `Confirm` and `Decline` use only its id and role, and accept any user.
- Password hashing: `generate_password_hash` is a `hash` function parameter. The real call salts randomly, so the model does not capture that two hashes of one password differ. `check_password_hash` is the `verifies` parameter of `Login`.
- Loading the artifacts with `joblib` and checking that the files exist (app.py:26-33): the classifier and the column list are `Option` parameters of `Predict`.
- `float()`, `int()` and `datetime.fromisoformat(...).date()` are parse parameters that either succeed or fail. NaN and infinity from `float("nan")` are not modelled; numbers are Dafny reals.
- `model.predict_proba` is the `Classifier` parameter, whose results are probabilities in [0, 1].
- `json.dumps` of the stored submission: a record holds the coerced form itself.
- Alignment.GetDummies: two fields can produce the same column name: a numeric field and a dummy, or two dummies (`a`=`b_c` and `a_b`=`c` both give `a_b_c`). pandas keeps both columns, but the model keeps one, the dummy. When that shared name is a trained column, `df[columns]` selects both copies, `predict_proba` is given too many columns and raises, and nothing is stored. In that case the model returns a probability and appends a record. pandas' boolean dummies are modelled as 1.
- Emails.Lower: only ASCII letters are lower-cased. Python's full Unicode lower-casing is not modelled, including the case where it changes the string's length.
- Column widths (`String(150)`, `String(20)`) are not modelled; SQLite does not enforce them.
- Timestamps (`created_at`) come from a `now` parameter.
- Auto-increment keys are modelled as position + 1. Nothing is ever deleted, so these are the keys SQLite assigns.
- `train_model.py`, database commits, `create_all` and concurrency between requests are not modelled.
