# MedBox patient app: session resolution, onboarding and live collections in Dafny

This project models the behaviour of the MedBox web client, a React application backed by
a hosted document store and identity provider. Four parts of it carry behaviour:

- **Session and profile resolution** (`App`, modelling `src/App.jsx`). The root component
  holds `user`, `userProfile` and `loading`. Each identity change sets the user and looks
  up `users/{uid}`. A missing document resolves to `{needsProfile: true}`. The loading flag
  is cleared only once that lookup has completed. A pure routing function then picks the
  sign-in view, onboarding, the patient portal or the "unknown role" message.
- **Profile onboarding** (`CreateProfile`, modelling `src/components/CreateProfile.jsx`).
  The PIN is validated: the length check comes first, then the match check. On success the
  form writes `users/{uid}` and then `patients/{uid}`, and after that calls the completion
  callback. Nothing is rolled back when the second write fails.
- **Medication list** (`Medbox`, modelling `src/components/Medbox.jsx`). A listener on
  `medications/{uid}/userMedications` rebuilds the list from every snapshot in a loop. Add
  is guarded by the trimmed inputs. Delete is scoped to the owner.
- **Patient portal** (`PatientPortal`, modelling `src/components/PatientPortal.jsx`). The
  same replace-on-snapshot pattern is applied to `patients/{uid}/consultations`. Missing
  profile fields are shown as `N/A` and a missing doctor name as `Unknown`.

The store is abstracted in `Firestore`. A store is a map from paths to documents, and a
document is a map from field names to values. The `Db` class holds the map plus a log of
every request issued, so "no read", "no writes" and "exactly one delete" can be stated.
Each store call takes a `fault` parameter; a `Some(message)` makes that call reject.
Identity events, clock readings, random draws and snapshot contents are also parameters.
`JsStrings` models the JavaScript string operations the components use: `trim`, `substr`
and ASCII `toUpperCase`.

The model follows the code as written. The code has no stale-lookup guard, no failed-lookup
state with retry, no atomic two-document commit, no digits-only PIN check and no sync-lost
indicator, so the model has none of these either.

Some consequences of the code that the model makes explicit:

- A rejected profile lookup leaves `loading` as it was.
- `loading` is never raised again after the first event. So on a later sign-in, during the
  lookup, the view is the routed one computed with the previous profile
  (`SignInAfterSignOutShowsMessageWhileResolving`).
- A second-write failure during onboarding leaves `users/{uid}` written.
- The completion callback re-reads the profile of the user the form was rendered for, even
  when the identity has changed since (`App.App.OnProfileCreated`).
- The placeholder PIN hash contains the PIN in clear.
- Changing the user does not clear `meds` or `consultations`. The old list stays until the
  new listener's first snapshot arrives.

## Model

| member | source | states |
|---|---|---|
| `App.App.constructor` | src/App.jsx:18-20 | starts with no user, no profile and `loading` true |
| `App.ResolveProfile` | src/App.jsx:24-35 | no user resolves to no profile; an existing `users/{uid}` resolves to its data; a missing one to exactly `{needsProfile: true}` |
| `App.App.CheckUserProfile` | src/App.jsx:23-36 | no user: profile cleared, no request issued; otherwise exactly one read of `users/{uid}`; on success the profile is `ResolveProfile`; a rejected read leaves the profile unchanged |
| `App.App.OnAuthStateChanged` | src/App.jsx:39-43 | sets the user; `loading` becomes false only when the profile check completed, and is untouched when the lookup rejects |
| `App.App.OnProfileCreated` | src/App.jsx:58 | the completion callback issues exactly one read of `users/{uid}` for the user captured when the form was rendered, and settles on that user's profile whatever `user` holds by then; a rejected read leaves the profile unchanged |
| `App.RenderContent` | src/App.jsx:53-66 | routing never yields the spinner; the sign-in view exactly when there is no user; the portal only for a patient-role profile that is not flagged as needing creation |
| `App.NeedsProfile` | src/App.jsx:55 | `userProfile?.needsProfile` is truthy only for a present profile that has the field |
| `App.IsPatient` | src/App.jsx:60 | `userProfile?.role === 'patient'` holds exactly for a present profile whose `role` is the string `patient` |
| `App.Render` | src/App.jsx:48-50 | the spinner is shown exactly while loading, whatever the user and profile |
| `App.NeedsProfileBeforeRole` | src/App.jsx:55-61 | a profile with a truthy `needsProfile` goes to onboarding even if its role is `patient` |
| `App.MissingProfileRoutesToOnboarding` | src/App.jsx:31-35 | a signed-in user with no `users/{uid}` document is routed to onboarding after resolution |
| `App.SignedOutRoutesToAuth` | src/App.jsx:24-27 | no identity resolves to no profile and the sign-in view |
| `App.StoredProfileRouting` | src/App.jsx:53-66 | for a stored profile the route is onboarding if flagged, else the portal for role `patient`, else the support message |
| `App.SignInAfterSignOutShowsMessageWhileResolving` | src/App.jsx:39-43 | with loading already false and the profile cleared, a new user is routed to the support message until the lookup completes |
| `App.OnboardedUserRoutesToPortal` | src/App.jsx:28-35 | once `users/{uid}` holds the onboarding document, resolution yields it and the route is the patient portal |
| `App.App.SubmitOnboarding` | src/App.jsx:58 | a failed validation leaves store, log and profile untouched; a valid submission with both writes and the re-check succeeding ends on the patient portal |
| `CreateProfile.CreateProfile.constructor` | src/components/CreateProfile.jsx:64-67 | all inputs and the error start empty |
| `CreateProfile.ValidatePin` | src/components/CreateProfile.jsx:73-80 | the input passes iff the PIN has at least 4 characters and equals the confirmation; a failure is one of the two messages |
| `CreateProfile.LengthCheckFirst` | src/components/CreateProfile.jsx:73-76 | a PIN shorter than 4 yields "PIN must be at least 4 digits." whatever the confirmation |
| `CreateProfile.MismatchAfterLength` | src/components/CreateProfile.jsx:77-80 | a long enough PIN that differs from the confirmation yields "PINs do not match." |
| `CreateProfile.NonDigitPinAccepted` | src/components/CreateProfile.jsx:73 | validation does not require digits: `abcd` passes |
| `CreateProfile.CapLength` | src/components/CreateProfile.jsx:137 | an input with `maxLength` holds at most that many characters, and the value itself when it fits; text entered at the end of the field is cut to its first `maxLength` characters |
| `CreateProfile.CreateProfile.ChangeName` | src/components/CreateProfile.jsx:127 | the name input holds the typed value |
| `CreateProfile.CreateProfile.ChangePin` | src/components/CreateProfile.jsx:131-138 | the PIN holds the typed value capped at 4 characters |
| `CreateProfile.CreateProfile.ChangeConfirmPin` | src/components/CreateProfile.jsx:139-146 | the confirmation holds the typed value capped at 4 characters |
| `CreateProfile.CappedPinPassesOnlyAtFour` | src/components/CreateProfile.jsx:145 | with the 4-character cap, a PIN that passes has exactly 4 characters |
| `CreateProfile.MedboxId` | src/components/CreateProfile.jsx:88 | the generated id starts with `MB-`, has at most 9 characters and no lower-case letter after the prefix |
| `CreateProfile.MedboxIdShape` | src/components/CreateProfile.jsx:88 | from a base-36 random text with at least six fraction digits the id is `MB-` and six characters from 0-9 and A-Z |
| `CreateProfile.PinHash` | src/components/CreateProfile.jsx:87 | the placeholder is `hashed_`, the PIN, `_` and the random text, in that order |
| `CreateProfile.PinHashRevealsPin` | src/components/CreateProfile.jsx:87 | the placeholder hash holds the PIN verbatim right after `hashed_` |
| `CreateProfile.UserDoc` | src/components/CreateProfile.jsx:91-95 | `users/{uid}` gets exactly `role: 'patient'`, the name and the medboxId |
| `CreateProfile.PatientDoc` | src/components/CreateProfile.jsx:98-105 | `patients/{uid}` gets exactly one field, `profile`, an object with name, medboxId, pinHash and insurerId |
| `CreateProfile.OnboardingDocsAgree` | src/components/CreateProfile.jsx:91-105 | `users/{uid}` has role `patient`; the `patients/{uid}` profile has the same name and medboxId, the pinHash and `insurerId` null, and nothing else |
| `CreateProfile.CreateProfile.HandleSubmit` | src/components/CreateProfile.jsx:69-116 | a validation failure sets its message with no request and no callback; otherwise `users/{uid}` then `patients/{uid}` are written; a first-write failure stores nothing; a second-write failure keeps the first document; the error is cleared and the callback runs only after both writes succeed; with both inputs within their `maxLength`, a submission that passes validation has PINs of exactly 4 characters |
| `JsStrings.TrimStart` | src/components/Medbox.jsx:38 | the result is the suffix after the leading whitespace and does not start with whitespace |
| `JsStrings.TrimEnd` | src/components/Medbox.jsx:38 | the result is the prefix before the trailing whitespace and does not end with whitespace |
| `JsStrings.TrimIsSlice` | src/components/Medbox.jsx:38 | `trim()` returns the slice of the string between a whitespace prefix and a whitespace suffix, and the slice neither starts nor ends with whitespace |
| `JsStrings.TrimEmptyIffBlank` | src/components/Medbox.jsx:38 | `trim()` yields the empty string exactly for strings made only of whitespace |
| `JsStrings.Substr` | src/components/CreateProfile.jsx:88 | `substr(start, length)` returns at most `length` characters copied from `start` on |
| `JsStrings.ToUpperAscii` | src/components/CreateProfile.jsx:88 | upper-casing keeps the length and maps each lower-case ASCII letter to upper case |
| `Firestore.Truthy` | src/App.jsx:55 | a value is truthy exactly when it is present and not `null`, `false`, `0` or the empty string |
| `Firestore.Field` | src/App.jsx:55 | `o?.k` is present exactly when the document is present and has the field, and is then that field's value |
| `Firestore.Db.GetDoc` | src/App.jsx:29 | one read of the path is logged; the result is the rejection, or the stored document or its absence |
| `Firestore.Db.SetDoc` | src/components/CreateProfile.jsx:91-105 | one write is logged; on success the document at the path becomes the given one and nothing else changes; a rejection changes nothing |
| `Firestore.Db.AddDoc` | src/components/Medbox.jsx:40-44 | one add is logged; on success the document is stored under the collection with the store-chosen id; a rejection changes nothing |
| `Firestore.Db.DeleteDoc` | src/components/Medbox.jsx:54 | one delete is logged; on success the document at the path is gone and nothing else changes; a rejection changes nothing |
| `Firestore.WithId` | src/components/Medbox.jsx:28 | a materialised record has the document's fields plus `id`, and `id` is the document id even when the data has its own `id` |
| `Firestore.Materialize` | src/components/PatientPortal.jsx:123 | a snapshot projects element-wise to records: same length, same order |
| `Medbox.CollectMeds` | src/components/Medbox.jsx:26-29 | the `forEach` push loop builds exactly the element-wise projection of the snapshot |
| `Medbox.MedsQuery` | src/components/Medbox.jsx:21-24 | the listener's query is the user's `medications/{uid}/userMedications`, ordered by `createdAt` descending |
| `Medbox.OwnersHaveDistinctQueries` | src/components/Medbox.jsx:21-24 | two different users never share a listener query |
| `Medbox.Medbox.constructor` | src/components/Medbox.jsx:15-34 | empty list and inputs; a listener on the user's `userMedications` ordered by `createdAt` descending is open exactly when there is a user |
| `Medbox.Medbox.ChangeUser` | src/components/Medbox.jsx:19-34 | the old listener is released and one is opened for the new user if there is one |
| `Medbox.Medbox.Unmount` | src/components/Medbox.jsx:32 | unmounting releases the listener |
| `Medbox.Medbox.OnSnapshot` | src/components/Medbox.jsx:25-31 | only a snapshot for the open listener's query is delivered; it replaces the list with its projection, never a merge, and every record is a stored document of the current user's `userMedications`, carrying its document id |
| `Medbox.Medbox.ChangeMedName` | src/components/Medbox.jsx:82 | the name input holds the typed value |
| `Medbox.Medbox.ChangeMedDosage` | src/components/Medbox.jsx:90 | the dosage input holds the typed value |
| `Medbox.CanAdd` | src/components/Medbox.jsx:38 | an add is never attempted with an empty name or dosage |
| `Medbox.CanAddIffNotBlank` | src/components/Medbox.jsx:38 | add is refused exactly when the name or the dosage is made only of whitespace |
| `Medbox.MedDoc` | src/components/Medbox.jsx:40-44 | the added document has exactly `name`, `dosage` and `createdAt`, holding the inputs as typed and the submission time |
| `Medbox.Medbox.HandleAddMed` | src/components/Medbox.jsx:36-50 | a blank input means no request and unchanged inputs; otherwise exactly one add of `{name, dosage, createdAt}` with the untrimmed inputs, after which the inputs are cleared only on success; the list is never touched |
| `Medbox.AddedMedicationAppearsOnce` | src/components/Medbox.jsx:40-44 | after a successful add, any snapshot of the store shows the new record exactly once, with the entered fields and the store's id |
| `Medbox.Medbox.HandleDeleteMed` | src/components/Medbox.jsx:52-58 | exactly one delete of `medications/{uid}/userMedications/{id}`; only that document goes; the list is never touched |
| `Medbox.DeleteSparesOtherOwners` | src/components/Medbox.jsx:54 | a delete leaves every other owner's records as they were |
| `PatientPortal.ConsultationsQuery` | src/components/PatientPortal.jsx:118-121 | the listener's query is the user's `patients/{uid}/consultations`, ordered by `date` descending |
| `PatientPortal.PatientsHaveDistinctQueries` | src/components/PatientPortal.jsx:118-121 | two different patients never share a listener query |
| `PatientPortal.PatientPortal.constructor` | src/components/PatientPortal.jsx:113-127 | empty list; a listener on the user's `consultations` ordered by `date` descending is open exactly when there is a user |
| `PatientPortal.PatientPortal.ChangeUser` | src/components/PatientPortal.jsx:116-127 | the returned unsubscribe runs and a listener opens for the new user if there is one |
| `PatientPortal.PatientPortal.Unmount` | src/components/PatientPortal.jsx:125 | unmounting runs the unsubscribe |
| `PatientPortal.PatientPortal.OnSnapshot` | src/components/PatientPortal.jsx:122-124 | only a snapshot for the open listener's query is delivered; it replaces the list with its element-wise projection, and every record is a stored consultation of the current user, carrying its document id |
| `PatientPortal.OrElse` | src/components/PatientPortal.jsx:145 | `value || fallback` shows the value when it is truthy and the fallback text otherwise |
| `PatientPortal.ProfileField` | src/components/PatientPortal.jsx:145-146 | the shown name or medboxId is truthy: the profile's field when truthy, `N/A` otherwise |
| `PatientPortal.DoctorName` | src/components/PatientPortal.jsx:161 | the shown doctor is truthy: the consultation's doctorName when truthy, `Unknown` otherwise |
| `PatientPortal.DisplayedFieldsNeverBlank` | src/components/PatientPortal.jsx:145-161 | name, medboxId and doctor are never shown blank; a missing profile shows `N/A` for both fields; a missing doctor shows `Unknown` |
| `PatientPortal.OnboardedProfileShown` | src/components/PatientPortal.jsx:145-146 | the profile written at onboarding is shown with its generated id and its name (or `N/A` for an empty name) |
| `PatientPortal.HistoryView` | src/components/PatientPortal.jsx:151-156 | the empty state is shown exactly when there are no consultations; otherwise all of them |
| `PatientPortal.SnapshotHistory` | src/components/PatientPortal.jsx:122-124 | a snapshot shows the empty state iff it is empty; otherwise one item per document, in order, identified by the document id |

## Left out

- `src/components/Auth.jsx` is not part of this model. It only passes credentials to the identity provider and displays the provider's errors.
- `src/firebase.js` is not part of this model. It holds configuration and SDK set-up only.
- JSX markup, styled components and the sign-out buttons are not modelled. They are presentation, or a direct call into the identity provider.
- The store's SDK internals are not modelled. Its calls are operations on a map, with a per-call failure parameter. Listener delivery is a snapshot passed in. `IsSnapshotOf` orders only timestamp values; the store's ordering across value types is not modelled.
- `Math.random()` is not modelled. Its texts are parameters (`pinRandom`, `base36`).
- `new Date()` is the `now` parameter. The date formatting with `toLocaleDateString` (src/components/PatientPortal.jsx:160) is not modelled: it depends on the clock and the locale.
- Overlapping identity events are not modelled. Each `OnAuthStateChanged` runs to completion, so nothing is claimed about a slow lookup finishing after a newer event. Renders between `setUser` and the end of the lookup appear only as the lemma `SignInAfterSignOutShowsMessageWhileResolving`.
- The browser's `required` check on the form inputs is not modelled. The submit handlers are modelled for any input values.
- JavaScript string lengths count UTF-16 code units, and `maxLength` counts them too. The model counts Unicode characters, so the two differ for characters outside the Basic Multilingual Plane.
- MedboxId: upper-casing is modelled for ASCII letters only. This is exact for the characters `toString(36)` produces.
- Numbers are integers. Floating point and `NaN` truthiness are not modelled.
- The `console.error` logging in Medbox's `catch` blocks is not modelled.
- The unhandled rejection of the callback's profile check is modelled only as "profile unchanged".
- CreateProfile.CapLength: models an edit that produces the whole new text and the browser's cut to its first `maxLength` characters, which is what typing or pasting at the end of the field gives. An insertion in the middle of a full field, which the browser truncates or ignores, is not modelled; the PIN results rely only on the length bound.
- Splitting a user id that contains `/` into several path segments is not modelled.
- Medbox.AddedMedicationAppearsOnce: does not claim that the new record's `createdAt` is later than every earlier record, because that depends on the clock.
