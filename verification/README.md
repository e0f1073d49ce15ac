# Address-book form app: a verified model of its logic

The application lets a user look up addresses by postcode and house number
through a lookup endpoint, pick one result, attach a first and last name,
and store the composed record in an in-memory address book. This project
models the four pieces of that application that decide something, and proves
what each promises:

- `address_book_slice.dfy`, module `AddressBookSlice`: the address-book store.
  Class `AddressBook` holds the list of addresses that the reducers
  `addAddress`, `removeAddress`, `updateAddresses` and `clearAllAddresses`
  change in place. `Added` and `Without` are the functions that specify the
  list after an add or a remove. The lemmas give the ordering, idempotence
  and id-uniqueness guarantees. `SelectAddresses` is the plain field read
  `selectAddresses` performs. `SelectAddressById` is the `find` by id.
- `get_addresses.dfy`, module `GetAddresses`: the lookup endpoint `handle`.
  It is a first-failure-wins chain of four checks, then the choice between
  200 and 404. The mock generator is a function parameter that returns
  `None` for a falsy value. The two digit messages are stated as the field
  name followed by `NotDigitsSuffix`, the way the source's template builds
  them.
- `app.dfy`, module `App`: the page component. `DecidePersonSubmit` is the
  guard chain of `handlePersonSubmit`. Class `AppState` holds the component
  state (form, lookup results, error, loading flag) and the store it adds
  to. Its methods are the handlers. `handleAddressSubmit` is split at its
  `await`: `BeginAddressSubmit` is the part before it and
  `CompleteAddressSubmit` the part after. The request's result comes in as a
  `FetchOutcome`, and `transformAddress` is a function parameter.
- `use_form.dfy`, module `UseForm`: the form hook. A field record is a map
  from field name to value. `handleChange` updates one field and
  `resetForm` restores the initial record.
- `addresses.dfy` (module `Addresses`) holds the address record and the
  first-match lookup by id that the store and the page both use.
  `js_strings.dfy` (module `JsStrings`) holds the JavaScript string semantics
  the code relies on: `trim` with ECMAScript's white-space and line-terminator
  set, and `length` counted in UTF-16 code units. `wrappers.dfy` holds `Option`.

In three places the code does something a reader might not expect; the model
follows the code:

- A generator result that is an empty array is truthy, so `handle` answers 200
  with empty `details`. Only `null`/`undefined` gives 404
  (`GetAddresses.ValidRequestOutcome`).
- A successful `handlePersonSubmit` does not clear a previously shown error
  (`App.AppState.HandlePersonSubmit`, `error == old(error)`).
- `removeAddress` removes every entry with the id, not just one.

## Model

| member | source | states |
|---|---|---|
| `AddressBookSlice.AddressBook.constructor` | src/core/reducers/addressBookSlice.ts:11-13 | the store starts with no addresses |
| `AddressBookSlice.AddressBook.AddAddress` | src/core/reducers/addressBookSlice.ts:19-29 | the new list is `Added(old list, payload)`, and unique ids stay unique |
| `AddressBookSlice.AddressBook.RemoveAddress` | src/core/reducers/addressBookSlice.ts:30-35 | the new list is `Without(old list, id)`, and unique ids stay unique |
| `AddressBookSlice.AddressBook.UpdateAddresses` | src/core/reducers/addressBookSlice.ts:36-38 | the list becomes exactly the payload; nothing is deduplicated or checked |
| `AddressBookSlice.AddressBook.ClearAllAddresses` | src/core/reducers/addressBookSlice.ts:40-42 | the list becomes empty |
| `AddressBookSlice.AddressBook.SelectAddresses` | src/core/reducers/addressBookSlice.ts:54 | returns the stored list itself, and every entry in it can be selected by its id |
| `AddressBookSlice.AddressBook.SelectAddressById` | src/core/reducers/addressBookSlice.ts:57-58 | returns nothing exactly when no entry has the id; otherwise returns the stored entry at the first position with that id |
| `AddressBookSlice.Added` | src/core/reducers/addressBookSlice.ts:21-27 | the list after an add extends the old list by at most one entry, always holds the payload's id, and equals the old list exactly when the id was already stored |
| `AddressBookSlice.Without` | src/core/reducers/addressBookSlice.ts:32-34 | the list after a remove is no longer than the old list, and no entry in it has the removed id |
| `AddressBookSlice.AddedAppendsWhenAbsent` | src/core/reducers/addressBookSlice.ts:21-27 | adding an absent id appends the payload at the end and keeps all earlier entries in order |
| `AddressBookSlice.AddedUnchangedWhenPresent` | src/core/reducers/addressBookSlice.ts:21-26 | adding an id that is already stored leaves the list unchanged |
| `AddressBookSlice.AddedIdempotent` | src/core/reducers/addressBookSlice.ts:21-26 | adding the same entry twice equals adding it once |
| `AddressBookSlice.AddedHasId` | src/core/reducers/addressBookSlice.ts:19-29 | after an add, some entry carries the payload's id |
| `AddressBookSlice.AddedKeepsUnique` | src/core/reducers/addressBookSlice.ts:19-29 | unique ids before an add means unique ids after |
| `AddressBookSlice.WithoutKeepsOthers` | src/core/reducers/addressBookSlice.ts:32-34 | an entry remains exactly when it was stored and has a different id |
| `AddressBookSlice.WithoutConcat` | src/core/reducers/addressBookSlice.ts:32-34 | the filter distributes over concatenation, so the kept entries stay in their original relative order |
| `AddressBookSlice.WithoutAbsent` | src/core/reducers/addressBookSlice.ts:32-34 | removing an id that no entry has leaves the list unchanged |
| `AddressBookSlice.WithoutShrinks` | src/core/reducers/addressBookSlice.ts:32-34 | a remove never lengthens the list, and it strictly shortens it when the id is stored |
| `AddressBookSlice.WithoutKeepsUnique` | src/core/reducers/addressBookSlice.ts:30-35 | unique ids before a remove means unique ids after |
| `Addresses.FirstIndexOf` | src/core/reducers/addressBookSlice.ts:57-58 | gives nothing exactly when no entry has the id; otherwise gives a position holding the id with no earlier entry holding it |
| `Addresses.Find` | src/App.tsx:85-87 | `find` by id: gives nothing exactly when no entry has the id; otherwise gives the entry at the first position holding it |
| `GetAddresses.StatusCode` | pages/api/getAddresses.ts:18-82 | 200 exactly for a found result, 400 exactly for a validation failure, 404 exactly for not found |
| `GetAddresses.ErrorMessageOf` | pages/api/getAddresses.ts:18-82 | every response except a 200 carries an error message: a 400 its own validation message, a 404 "No results found!" |
| `GetAddresses.AllAsciiDigits` | pages/api/getAddresses.ts:38 | true exactly when every character is an ASCII digit 0-9 |
| `GetAddresses.MatchesDigits` | pages/api/getAddresses.ts:38 | `/^\d+$/` matches exactly the non-empty strings of ASCII digits |
| `GetAddresses.ValidateNumericField` | pages/api/getAddresses.ts:34-45 | accepts exactly the non-empty strings of ASCII digits; a rejection carries "<field> must be all digits and non negative!" and an acceptance carries no message |
| `GetAddresses.Handle` | pages/api/getAddresses.ts:9-83 | a 400 carries one of the four validation messages; otherwise both parameters are present, and the result is 200 exactly when the generator returns a value for them, with that value as `details` |
| `GetAddresses.BadRequestIffInvalid` | pages/api/getAddresses.ts:17-62 | a 400 is answered exactly when the request is not valid: a parameter is missing or empty, the postcode is shorter than 4, or a parameter has a non-digit |
| `GetAddresses.ValidRequestOutcome` | pages/api/getAddresses.ts:65-82 | a valid request gets 200 with the generator's value (an empty array included) when that value is truthy, and 404 otherwise |
| `GetAddresses.MissingFieldFirst` | pages/api/getAddresses.ts:18-23 | a missing or empty parameter yields "Postcode and street number fields mandatory!" before any other check |
| `GetAddresses.ShortPostcodeRejected` | pages/api/getAddresses.ts:26-31 | a present postcode whose `length` (in UTF-16 code units) is below 4 yields "Postcode must be at least 4 digits!", whatever its characters, for any non-empty street number |
| `GetAddresses.NonDigitPostcodeRejected` | pages/api/getAddresses.ts:47-54 | a postcode whose `length` (in UTF-16 code units) is at least 4 and that has a non-digit yields "Postcode must be all digits and non negative!", even when the street number is also bad |
| `GetAddresses.NonDigitStreetNumberRejected` | pages/api/getAddresses.ts:56-62 | with a valid postcode, a street number with a non-digit yields "Street Number must be all digits and non negative!" |
| `GetAddresses.AstralShortPostcodeExample` | pages/api/getAddresses.ts:26-31 | a postcode of one character outside the Basic Multilingual Plane (`length` 2) is answered "Postcode must be at least 4 digits!" |
| `GetAddresses.AstralLongPostcodeExample` | pages/api/getAddresses.ts:26-54 | a postcode of two characters outside the Basic Multilingual Plane (`length` 4) passes the length check and is answered "Postcode must be all digits and non negative!" |
| `GetAddresses.ShortPostcodeExample` | pages/api/getAddresses.ts:26-31 | postcode "123" with street number "1" is answered 400 "Postcode must be at least 4 digits!" |
| `GetAddresses.NonDigitPostcodeExample` | pages/api/getAddresses.ts:38-54 | postcode "12AB" with street number "1" is answered "Postcode must be all digits and non negative!" |
| `GetAddresses.ValidLookupExample` | pages/api/getAddresses.ts:65-82 | postcode "1234" with street number "1" is answered 200 with the generator's records, or 404 "No results found!" when the generator gives a falsy value |
| `JsStrings.TrimStart` | src/App.tsx:75 | removes exactly a leading run of white space, and the result does not start with white space |
| `JsStrings.TrimEnd` | src/App.tsx:75 | removes exactly a trailing run of white space, and the result does not end with white space |
| `JsStrings.Trim` | src/App.tsx:75 | the result is the slice of the string left after cutting off a leading run and a trailing run of white space; it is empty exactly when the string is all white space, and otherwise starts and ends with non-white-space |
| `JsStrings.TrimOfUnpadded` | src/App.tsx:96-97 | a string without white space at either end is its own trim |
| `JsStrings.Utf16Length` | pages/api/getAddresses.ts:26 | `length` is between the number of characters and twice that, and equals it exactly when every character lies in the Basic Multilingual Plane |
| `JsStrings.Utf16LengthOfChar` | pages/api/getAddresses.ts:26 | a character counts one code unit inside the Basic Multilingual Plane and two outside it |
| `JsStrings.Utf16LengthConcat` | pages/api/getAddresses.ts:26 | the `length` of a concatenation is the sum of the lengths, so a string's `length` is the sum over its characters |
| `UseForm.UseForm` | src/hooks/useForm.ts:3-4 | the form starts with its values equal to the initial values |
| `UseForm.HandleChange` | src/hooks/useForm.ts:6-12 | the changed field holds the new value, every other field keeps its value, and the field names gain at most the changed name |
| `UseForm.ResetForm` | src/hooks/useForm.ts:14-16 | the values become the initial values |
| `UseForm.LastChangeWins` | src/hooks/useForm.ts:8-11 | of two changes to one field, the later one wins |
| `UseForm.HandleChangeIdempotent` | src/hooks/useForm.ts:8-11 | applying the same change twice equals applying it once |
| `UseForm.ChangesCommute` | src/hooks/useForm.ts:8-11 | changes to two different fields commute |
| `UseForm.ChangesKeepInitialValues` | src/hooks/useForm.ts:3-12 | no sequence of changes alters the initial values |
| `UseForm.ResetAfterChanges` | src/hooks/useForm.ts:14-16 | whatever changes came before, resetting yields exactly the initial values |
| `App.FetchOutcomeOf` | src/App.tsx:50 | only a 200 answer passes the `response.ok` gate, and it passes on its `details` |
| `App.PrepareForTransform` | src/App.tsx:55-61 | the object handed to the transformation has the searched house number whatever the raw record's own, `lon` taken from `long`, and every other field copied |
| `App.TransformAll` | src/App.tsx:55-62 | one transformed address per raw record, in order |
| `App.DecidePersonSubmit` | src/App.tsx:75-98 | a rejection carries one of the three form messages; an acceptance stores an entry whose id is the non-empty selected id and whose names are the trimmed, non-blank names |
| `App.BlankNameRejectedFirst` | src/App.tsx:75-78 | an empty or all-white-space first or last name gives "First name and last name fields mandatory!" before any other check |
| `App.NoSelectionRejected` | src/App.tsx:80-83 | with both names filled in, an empty selection or an empty result list gives "No address selected" |
| `App.UnknownSelectionRejected` | src/App.tsx:85-92 | a selected id that no listed address has gives "Selected address not found" |
| `App.AcceptedIff` | src/App.tsx:75-92 | the submission is accepted exactly when both names have a non-white-space character and some listed address has the selected, non-empty id |
| `App.AcceptedEntryIsFirstMatch` | src/App.tsx:85-98 | the stored entry is the first listed address with the selected id, with the trimmed names on it and all other fields kept |
| `App.JaneDoeExample` | src/App.tsx:85-98 | selecting the only listed address with names "Jane" and "Doe" stores exactly that address with those names |
| `App.InvalidLookupFails` | src/App.tsx:46-50 | a lookup the endpoint rejects takes the client's failure path |
| `App.AppState.constructor` | src/App.tsx:24-36 | the form starts at the initial values, with no results, no error and no loading |
| `App.AppState.HandleChange` | src/App.tsx:33 | the form is updated by the hook's `handleChange`; the rest of the state is unchanged |
| `App.AppState.HandlePersonSubmit` | src/App.tsx:72-100 | a rejection sets the error and leaves the form and the store unchanged; an acceptance adds the entry to the store and resets the form, leaving the error as it was |
| `App.AppState.HandleClearAll` | src/App.tsx:102-106 | the form is reset, the results are emptied, the error is cleared, and the store is not touched |
| `App.AppState.BeginAddressSubmit` | src/App.tsx:39-47 | before the request, the error is cleared, the results are emptied and loading is on; the house number searched is the one in the form at submission |
| `App.AppState.CompleteAddressSubmit` | src/App.tsx:50-69 | on success the results are the transformed details; on failure the error is "Failed to fetch addresses. Please try again."; loading is off either way |
| `App.AppState.HandleAddressSubmit` | src/App.tsx:39-70 | a failed lookup ends with no results, the fetch error and loading off; a successful one ends with the transformed details, no error and loading off |

## Left out

- `generateMockAddresses` (the mock generator) is not part of this model. It is the parameter `generate`, and nothing is claimed about its records.
- `transformAddress` is not part of this model. It is the parameter `transform`. `addr.lat.toString()` and `addr.long.toString()` are modelled for string fields only. Number-to-string formatting is not modelled.
- The HTTP plumbing is left out: `res.status().send/json`, the request object, and query parameters given as arrays. The 500 ms delay before a 200 answer is left out too.
- `fetch`, `await` and the URL built from the form are left out. The request's result is a `FetchOutcome` given to the handler. A response that arrives after a newer submission is not modelled.
- React state batching and re-rendering are left out. A handler's setters are applied in order to one state object.
- `useAddressBook`, the Redux store wiring and `RootState` are not part of this model. The page is given the `AddressBook` object directly.
- The presentation components and the `src/types/button.ts` type aliases are left out. They are markup and type declarations.
- The `Address` type of `src/types` is not part of this model. Its fields follow the canonical address shape plus `firstName` and `lastName`.
- `UseForm.HandleChange`: an event whose target has no `name` is not modelled. Every change names a field.
