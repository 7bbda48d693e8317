# Physio-booking appointment core, modelled in Dafny

This project models the booking logic of the physio-booking backend.

- **`AppointmentService` in app.py.** It keeps a list of appointments. It answers whether a (date, time) slot is free. It refuses to book a taken slot, and otherwise appends an appointment with id "length + 1". It returns the list, and it cancels the first appointment carrying a given id.
- **The user directory in app.py.** This covers the module-level `users` list, the credential lookup behind login, and the decision logic of the register and delete-user handlers.
- **`AppointmentService` in services/appointment_service.py.** This earlier variant has the same create, view and cancel, but no availability check.

Modules:

- `Lists`: first-match search, removal at an index, and pairwise distinctness of a key. These are the Python list operations the code relies on.
- `Records`: the appointment record and the list-level meaning of booking and cancelling, shared by both services. It also holds the exclusivity invariant `SlotsDistinct` and the lemmas that booking a free slot and cancelling preserve it.
- `App`: the app.py service as a class whose field `appointments` the methods reassign. It also proves that the exclusivity invariant survives any sequence of create and cancel requests.
- `Users`: the app.py user directory as a class whose field `users` the handlers reassign, plus the pure validation of a registration.
- `Services`: the services/appointment_service.py class.
- `Options`: Python's "value or `None`".

Dates and times are abstract types compared only for equality. No calendar arithmetic occurs in the code. Owners, emails, passwords and names are strings.

### Behaviour worth knowing

- **Ids are reused.** Each booking computes its id as `len(appointments) + 1` (app.py:34). After a cancel, a new appointment can therefore get an id already in the list. A stricter service would use a counter that only increases. `App.IdReuseScenario` proves the reuse for the sequence "book, book, cancel 1, book", which leaves two appointments with id 2. Registration numbers users the same way (app.py:89), and `Users.UserIdReuseScenario` shows the same reuse. No lemma claims that ids are unique.
- **There is no free-slot enumeration.** Neither service can list the free slots of a day, so no such operation is modelled.
- **The service does not check the owner.** `AppointmentService.create_appointment` (app.py:30-37) books for any owner string, including the empty one, and so does the model. The request handler refuses a missing or empty session email with 401 (app.py:150-151). That guard belongs to the Flask layer, which is left out below.
- **The services/ variant can double-book.** Its create has no availability check, so "no two appointments share a slot" does not hold for services/appointment_service.py. `Services.DoubleBookingScenario` stores two appointments for the same slot.

## Model

| member | source | states |
|---|---|---|
| `Lists.FirstIndex` | app.py:25-28 | Gives the first index whose element satisfies the predicate, or the length when none does. Every earlier element fails the predicate. This is the first-match search behind app.py:14, 25, 43, 86 and 135 and services/appointment_service.py:17. |
| `Lists.RemoveAt` | app.py:45 | Removing the element found at index k gives a list one shorter. Elements before k are unchanged and elements after k shift down by one, in order. |
| `Records.IndexOfId` | app.py:43-44 | Gives the position of the first appointment with the id: every earlier one has a different id. It is below the length exactly when some appointment has the id. |
| `Records.Append` | app.py:34-36 | A successful booking leaves the old list as a prefix. It adds exactly one appointment at the end, with id old length + 1 and the given date, time and owner. |
| `Records.Cancel` | app.py:42-47 | Reports success exactly when some appointment has the id. On success it removes exactly the first such appointment, keeps the others in order, and shortens the list by one. Otherwise the list is unchanged. |
| `Records.AppendFreeSlotKeepsSlotsDistinct` | app.py:30-36 | If no two appointments share a slot and the requested slot is free, the same holds after appending the new appointment. |
| `Records.CancelKeepsSlotsDistinct` | app.py:42-47 | Cancelling any id preserves "no two appointments share a slot". |
| `Records.CancelTwice` | app.py:42-47 | For an id held by exactly one appointment: the first cancel succeeds, and the second finds nothing and leaves the list as the first left it. |
| `App.AppointmentService.constructor` | app.py:21-22 | A new service holds no appointments, so the invariant holds. |
| `App.AppointmentService.TimeSlotAvailable` | app.py:24-28 | Returns false exactly when some stored appointment has the given date and time. |
| `App.AppointmentService.CreateAppointment` | app.py:30-37 | Taken slot: returns no appointment plus the "no longer available" message, and the list is unchanged. Free slot: appends exactly one appointment (id old length + 1, given date, time and user), returns it with no error, and leaves earlier entries unchanged. Preserves "no two appointments share a slot". |
| `App.AppointmentService.GetAppointments` | app.py:39-40 | Returns the stored list and changes nothing. |
| `App.AppointmentService.CancelAppointment` | app.py:42-47 | Returns true exactly when the id is present. It removes exactly the first appointment with that id and keeps the rest in order. On false the list is unchanged. Preserves "no two appointments share a slot". |
| `App.ReplayKeepsSlotsDistinct` | app.py:20-47 | Serving any sequence of create and cancel requests, starting from a list where no two appointments share a slot, ends in a list where that still holds. |
| `App.IdReuseScenario` | app.py:30-47 | Booking two different slots, cancelling id 1 and booking again leaves two appointments that both have id 2. |
| `Users.EmailRegistered` | app.py:86 | True exactly when some registered user has the email. |
| `Users.RegisterRejection` | app.py:73-87 | Accepts exactly when email and password are non-empty, the email contains '@', the password has at least 6 characters, and no user has the email. Otherwise it returns the message of the first check that fails, in the handler's order. |
| `Users.UserDirectory.constructor` | app.py:10 | The directory starts empty, so emails are trivially distinct. |
| `Users.UserDirectory.CredentialsIndex` | app.py:14 | Gives the position of the first user whose email and password both match; no earlier user matches. |
| `Users.UserDirectory.VerifyUserCredentials` | app.py:13-15 | Returns nothing exactly when no user matches both email and password. Otherwise it returns the first matching user. |
| `Users.UserDirectory.Register` | app.py:74-91 | Rejected request: returns the rejection message and leaves the list unchanged. Accepted request: appends exactly one user with id old length + 1. Emails stay pairwise distinct. |
| `Users.UserDirectory.UserIndex` | app.py:135 | Gives the position of the first user with the id; no earlier user has it. |
| `Users.UserDirectory.DeleteUser` | app.py:134-141 | If no user has the id: returns nothing and changes nothing. Otherwise: removes exactly the first user with the id, keeps the rest in order, and returns that user's email. Emails stay pairwise distinct. |
| `Users.UserIdReuseScenario` | app.py:89-91 | Registering two users, deleting user 1 and registering a third leaves two users that both have id 2. |
| `Services.AppointmentService.constructor` | services/appointment_service.py:4-5 | A new service starts with an empty list. |
| `Services.AppointmentService.CreateAppointment` | services/appointment_service.py:7-11 | Always succeeds. Appends exactly one appointment at the end (id old length + 1, given date, time and patient name), returns it, and grows the list by exactly one. |
| `Services.AppointmentService.ViewAppointments` | services/appointment_service.py:13-14 | Returns the stored list and changes nothing. |
| `Services.AppointmentService.CancelAppointment` | services/appointment_service.py:16-21 | Returns true exactly when the id is present. On true it removes only the first appointment with that id, keeps the rest in order, and shrinks the list by exactly one. On false the list is unchanged. |
| `Services.DoubleBookingScenario` | services/appointment_service.py:7-11 | Two bookings of the same slot are both stored, so "no two appointments share a slot" fails for this service. |

## Left out

- The Flask layer (app.py:1-8, 53-63, 99-129, 146-180): routing, templates, JSON request parsing and responses, HTTP status codes, the session and its secret key, and the login, logout and list-users handlers. Two pieces of logic of their own go with them: the create handler's refusal of a missing or empty session email (app.py:150-151), and the list-users projection of each user to its id and email (app.py:128).
- The session write after a successful registration (app.py:94). The model returns the new user id instead.
- `AppointmentDTO` (app.py:154). Its module is not part of this model.
- The `Appointment` and `User` classes are not part of this model either. They are modelled as records built from their constructor arguments.
- models/patient.py: a record whose two setters each assign one field.
- Python `date` and `time` semantics. They are abstract types compared by equality.
- Missing JSON fields. The login handler passes `None` when a field is absent. The model takes strings only.
- Aliasing: `get_appointments` and `view_appointments` return the service's own list object, which a caller could then mutate. The model returns the list as an immutable value.
- Concurrency and durability. The module-global service and user list are shared across requests and never persisted. The model is sequential and in memory.
- The registration handler reads `patient_name` but never validates it, although its message mentions it. The model follows the code and does not check it.
