# BJJ attendance ledger — a Dafny model

This project models the core of a jiu-jitsu gym's attendance app. A member
checks in at a kiosk by typing the last four digits of their phone number.
The check-in costs one ticket from the member's balance and adds an
attendance record. Administrators can delete a record, optionally refunding
the ticket. They can also top tickets up, adjust them by hand, delete members
and toggle a member's status. Members log in to their own profile with the
same four-digit keypad.

The model has these modules:

- `Types` (`types.dfy`): the member, attendance-record and ticket-history
  records.
- `Storage` (`storage.dfy`): the storage service's operations as pure
  functions over the member list and the attendance list. These cover the
  phone-suffix lookup, check-in, record deletion with refund, ticket top-up
  and manual adjustment, member deletion, clearing the generated test
  members, and the current-member lookup. Each function returns
  `Result` when the source throws.
- `StorageService` (`storage_service.dfy`): class `Ledger`. Its three fields
  hold the member list, the attendance list and the current member id, the
  three values the source keeps in the browser store. Each method
  reads the fields, applies the matching `Storage` function and writes the
  result back. A method whose source throws leaves every field unchanged.
- `StorageLemmas` (`storage_lemmas.dfy`): properties that relate several
  operations. Examples are a check-in followed by a refund, a top-up followed
  by a withdrawal, and the history always recording the balance.
- `KioskPage` (`kiosk.dfy`): class `Kiosk`, the check-in kiosk's state
  machine. Its status is one of idle, detecting, success, error or selecting.
- `MyProfilePage` (`my_profile.dfy`): class `MyProfile`, the member login
  state machine.
- `MemberListPage` (`member_list.dfy`): the search filter and the status
  toggle as functions, and class `MemberList` holding the add-member form
  and the one-photo face capture.
- `Seqs` and `Wrappers`: a filter, a first-index search, the string tests
  the source uses (`startsWith`, `endsWith`, `includes`, `slice(0, -1)`),
  and `Option`/`Result`.

Values the source reads from the clock become parameters:

- the `Date.now()` ids and the ISO timestamps, passed as `Stamp` pairs;
- today's date;
- the refund note, which the source formats with `toLocaleDateString`.

A `setTimeout` callback on a page becomes that page's `pending` timer field.
The method `Timeout` runs the callback.

In the phone lookup, the source removes non-digits from each stored phone
number but not from the typed query. The model follows the source, so a
query containing a non-digit matches no one (`DashedQueryFindsNone`,
`NonDigitSuffixMatchesNothing`).

## Model

| member | source | states |
|---|---|---|
| Storage.DigitsOnly | services/storage.ts:44 | the phone with every non-digit removed: all its characters are digits, and a digit occurs in it exactly when it occurs in the phone |
| Storage.MembersByPhoneSuffix | services/storage.ts:41-47 | a member is found exactly when it is stored, active, and its digits-only phone ends with the query; never more members than stored |
| StorageLemmas.SuffixLookupInStorageOrder | services/storage.ts:41-47 | the lookup keeps storage order: looking up in `front + back` gives the results for `front` followed by those for `back` |
| StorageLemmas.SuffixOfDigitsIsDigits | services/storage.ts:44-45 | any suffix of an all-digit string is all digits, which is why a query with a non-digit can match no stripped phone |
| StorageLemmas.NonDigitSuffixMatchesNothing | services/storage.ts:41-47 | a query containing a non-digit finds no member, since only the stored phone is stripped |
| StorageLemmas.EmptySuffixFindsAllActive | services/storage.ts:41-47 | the empty query finds every active member, in order |
| StorageLemmas.DigitsOnlyOfDashedPhone | services/storage.ts:44 | stripping `x-y-z` with all-digit parts gives `xyz` |
| StorageLemmas.SharedSuffixFindsBoth | services/storage.ts:41-47 | two active members with phones 010-1234-5678 and 010-9999-5678 are both found by 5678, in order, and a suspended member with a matching phone is not |
| StorageLemmas.WrongSuffixFindsNone | services/storage.ts:41-47 | the query 4567 finds neither of those two phones |
| StorageLemmas.DashedQueryFindsNone | services/storage.ts:41-47 | the query `4-5678` finds no member of any list |
| StorageLemmas.LookupSkipsSuspended | services/storage.ts:42-43 | a suspended member is dropped before the phone test |
| Storage.FindMember | services/storage.ts:101 | `find` by id: the first stored member with the id, or none exactly when no member has it |
| Storage.FindRecord | services/storage.ts:153 | `find` by id over the attendance list: the first record with the id, or none exactly when no record has it |
| Storage.ReplaceById | services/storage.ts:89-92 | `updateMember`: length and ids are kept, each member with the given id becomes the new record, every other member is unchanged |
| StorageLemmas.FindMemberAfterReplace | services/storage.ts:89-92 | after an update, finding any id gives the same position as before |
| Storage.NewMember | services/storage.ts:53-87 | the stored record carries the given id and the draft's fields; the join date is the draft's or else today, the belt the draft's or else White, and the stripes the draft's or else 0; it has one promotion entry and one `add` history entry recording the draft's total and remaining tickets |
| StorageLemmas.NewMemberRecordsBalance | services/storage.ts:74-83 | a new member's last history entry records its remaining tickets |
| Storage.AddAttendance | services/storage.ts:99-134 | an unknown id gives "member not found"; a balance of 0 or less gives "insufficient tickets", and both errors change nothing. It succeeds exactly otherwise. Then the member's balance drops by exactly 1, one `use` entry with amount 1 and the new balance is appended, nothing else about the member changes, the member list is `updateMember` with that copy, and one record with the member's id and name is put first in the attendance list |
| StorageLemmas.CheckInConservesTicketsPlusVisits | services/storage.ts:106-133 | a check-in turns one ticket into one visit: balance plus the number of the member's records is unchanged, and the records grow by one |
| StorageLemmas.CheckInThenRefundRestores | services/storage.ts:99-185 | checking in and then deleting the new record (with a fresh id) with a refund succeeds, deletes that record, restores the attendance list and the member's balance, leaves the history two entries longer (the use, then the refund), changes nothing else about the member, and leaves the other members alone |
| Storage.CurrentMember | services/storage.ts:144-148 | a member is returned exactly when a non-empty current id is stored and some member has it, and it is the first such member |
| StorageLemmas.CurrentMemberAfterSet | services/storage.ts:140-148 | after storing a member's non-empty, unique id as current, reading the current member gives that member |
| Storage.DeleteAttendance | services/storage.ts:151-185 | an absent record id is exactly the error case, with "attendance record not found"; otherwise the first record with the id is returned, every record with that id is removed and the others are kept in order; with a refund and an existing member that member gets one ticket back and a `refund` entry whose balance is the new count; otherwise the members are unchanged |
| Storage.ClearDummyMembers | services/storage.ts:227-230 | keeps exactly the members whose id does not start with `dummy-` |
| StorageLemmas.ClearDummyKeepsOrder | services/storage.ts:227-230 | the filter keeps list order: clearing `front + back` gives the results for `front` followed by those for `back` |
| Storage.DeleteMember | services/storage.ts:233-249 | an unknown id is exactly the error case; otherwise the member list loses exactly the members with that id and the attendance list loses exactly the records of that member id, all others kept |
| Storage.NatToDecimal | services/storage.ts:274 | the numeral the default top-up note prints for a count: non-empty, all digits, and no leading zero unless the count is 0 |
| StorageLemmas.NatToDecimalRoundTrip | services/storage.ts:274 | reading the printed numeral back as a decimal number gives the count |
| Storage.TopUpNote | services/storage.ts:274 | the default top-up note is the amount's numeral between the fixed prefix `수강권 ` and suffix `회 충전` |
| StorageLemmas.TopUpNoteNamesAmount | services/storage.ts:274 | for a non-negative amount, the text between the note's prefix and suffix reads back as the amount |
| Storage.AddTickets | services/storage.ts:252-281 | an unknown id is exactly the error case; otherwise remaining and total tickets both grow by the amount, an `add` entry with the new balance is appended, its note is the caller's note or the default top-up note, and the list is `updateMember` with the copy |
| Storage.ManualAdjustTickets | services/storage.ts:283-311 | an unknown id is exactly the error case; otherwise the new balance is the old one plus the amount when that is positive and 0 otherwise, so never negative; the total grows by the amount exactly when it is positive; the entry is `add` exactly when the amount is positive and `use` otherwise, its amount is the amount's absolute value, and its balance is the new balance |
| StorageLemmas.TopUpThenWithdrawRestoresBalance | services/storage.ts:252-311 | topping up `n` tickets and adjusting by `-n` gives a non-negative balance back while the total keeps the top-up |
| StorageLemmas.PositiveAdjustmentIsTopUp | services/storage.ts:252-311 | a positive adjustment with a note that keeps a positive balance is exactly a top-up with that note |
| StorageLemmas.CheckInKeepsBalancesRecorded | services/storage.ts:106-122 | if every member's last history entry records its balance, that still holds after a check-in |
| StorageLemmas.DeleteAttendanceKeepsBalancesRecorded | services/storage.ts:158-178 | the same after deleting a record, with or without refund |
| StorageLemmas.AddTicketsKeepsBalancesRecorded | services/storage.ts:260-277 | the same after a top-up |
| StorageLemmas.ManualAdjustKeepsBalancesRecorded | services/storage.ts:291-307 | the same after a manual adjustment |
| StorageLemmas.DeletionsKeepBalancesRecorded | services/storage.ts:227-249 | the same after clearing test members or deleting a member |
| StorageLemmas.ReplaceKeepsBalancesRecorded | services/storage.ts:89-92 | replacing by id with a member whose history records its balance keeps the property for the list |
| StorageService.Ledger.GetMembers | services/storage.ts:32-39 | returns the stored member list |
| StorageService.Ledger.GetMembersByPhoneSuffix | services/storage.ts:41-47 | returns the suffix lookup over the stored members |
| StorageService.Ledger.SaveMembers | services/storage.ts:49-51 | the member list becomes the given one; nothing else changes |
| StorageService.Ledger.AddMember | services/storage.ts:53-87 | appends and returns the new member record; nothing else changes |
| StorageService.Ledger.UpdateMember | services/storage.ts:89-92 | the member list becomes the by-id replacement; nothing else changes |
| StorageService.Ledger.GetAttendance | services/storage.ts:94-97 | returns the stored attendance list |
| StorageService.Ledger.AddAttendance | services/storage.ts:99-134 | returns the check-in result for the old lists, stores its lists on success and changes nothing on failure |
| StorageService.Ledger.LogoutMember | services/storage.ts:136-138 | no current member id is stored; the lists are unchanged |
| StorageService.Ledger.SetCurrentMember | services/storage.ts:140-142 | the given id is the stored current id; the lists are unchanged |
| StorageService.Ledger.GetCurrentMember | services/storage.ts:144-148 | returns the member the stored id names, if any |
| StorageService.Ledger.DeleteAttendance | services/storage.ts:151-185 | returns the deletion result for the old lists, stores its lists on success and changes nothing on failure |
| StorageService.Ledger.ClearDummyMembers | services/storage.ts:227-230 | the member list loses the generated test members; nothing else changes |
| StorageService.Ledger.DeleteMember | services/storage.ts:233-249 | returns the deletion result, stores both filtered lists on success and changes nothing on failure |
| StorageService.Ledger.AddTickets | services/storage.ts:252-281 | returns the top-up result, stores its member list on success and changes nothing on failure |
| StorageService.Ledger.ManualAdjustTickets | services/storage.ts:283-311 | returns the adjustment result, stores its member list on success and changes nothing on failure |
| KioskPage.Kiosk.constructor | pages/Kiosk.tsx:9-15 | the kiosk opens idle, in camera mode, with an empty entry, no matched member, no candidates, no message and no pending timer |
| KioskPage.FailureMessage | pages/Kiosk.tsx:94 | the thrown message when it is non-empty, and some non-empty message in any case |
| KioskPage.Kiosk.ExecuteCheckIn | pages/Kiosk.tsx:82-97 | on a successful check-in: status success, the matched member is the updated member (one ticket fewer), the greeting names them, and a full reset is pending. On failure: status error, the thrown message verbatim, the store unchanged, and only a return to idle pending. The typed digits, the candidates and the mode are kept |
| KioskPage.Kiosk.HandleManualCheckIn | pages/Kiosk.tsx:120-136 | one match checks that member in; several matches give status selecting with the candidates equal to the matches; none gives status error with "no matching member" and a pending keypad clear; only the check-in touches the store |
| KioskPage.Kiosk.PressKey | pages/Kiosk.tsx:109-118 | a key is ignored once four digits are typed and otherwise appends exactly that digit; the lookup runs exactly when the fourth digit arrives, and before that nothing else changes |
| KioskPage.Kiosk.Clear | pages/Kiosk.tsx:218 | CLR empties the entry and changes nothing else |
| KioskPage.Kiosk.DeleteLast | pages/Kiosk.tsx:219 | DEL removes exactly the last digit, leaves an empty entry empty, and changes nothing else |
| KioskPage.Kiosk.SelectCandidate | pages/Kiosk.tsx:252-255 | picking the k-th candidate checks that member in |
| KioskPage.Kiosk.ResetToIdle | pages/Kiosk.tsx:99-107 | status idle; no matched member, no candidates, no message, an empty entry and manual mode off |
| KioskPage.Kiosk.SetManualMode | pages/Kiosk.tsx:232 | switches manual mode and changes nothing else |
| KioskPage.Kiosk.Timeout | pages/Kiosk.tsx:89-91 | the pending callback runs and none is pending afterwards: after a no-match error it clears the entry and returns to idle, after a failed check-in it only returns to idle, and after a success it resets everything |
| MyProfilePage.MyProfile.constructor | pages/MyProfile.tsx:10-13 | the screen opens on the stored current member, with an empty keypad, no error and no candidates |
| MyProfilePage.MyProfile.PressKey | pages/MyProfile.tsx:15-24 | a key is ignored at four digits and otherwise appended; a login is attempted exactly when the fourth digit arrives, and before that nothing else changes |
| MyProfilePage.MyProfile.HandleAction | pages/MyProfile.tsx:26-36 | CLR empties the suffix, DEL drops exactly its last digit, and both clear the candidates and the error |
| MyProfilePage.MyProfile.AttemptLogin | pages/MyProfile.tsx:38-49 | one match logs that member in; several matches become the candidates with no error and no login; none sets the "no account" error and empties the suffix |
| MyProfilePage.MyProfile.CompleteLogin | pages/MyProfile.tsx:51-56 | the member's id is stored as current, the member is shown, error and candidates are cleared, and for a stored member with a unique non-empty id reading the current member back gives that member |
| MyProfilePage.MyProfile.HandleLogout | pages/MyProfile.tsx:58-62 | no current id is stored, so reading the current member gives none; nobody is shown and the suffix is empty |
| MemberListPage.Search | pages/MemberList.tsx:21-23 | a member is kept exactly when it is listed and its name or phone contains the term |
| MemberListPage.EmptySearchKeepsAll | pages/MemberList.tsx:21-23 | an empty term keeps every member, in order |
| MemberListPage.SearchKeepsOrder | pages/MemberList.tsx:21-23 | the filter keeps list order |
| MemberListPage.Toggled | pages/MemberList.tsx:97 | active becomes suspended and every other status becomes active |
| MemberListPage.ToggleTwice | pages/MemberList.tsx:97 | toggling twice returns an active or suspended status |
| MemberListPage.ExpiredToggledTwiceIsSuspended | pages/MemberList.tsx:97 | an expired member toggled twice ends up suspended, not expired |
| MemberListPage.WithToggledStatus | pages/MemberList.tsx:97-98 | the copy differs from the member in its status only, which is toggled |
| MemberListPage.ToggleById | pages/MemberList.tsx:95-103 | the shown list keeps its length and order, members with the id are toggled and all others are unchanged |
| MemberListPage.ToggleByIdTwice | pages/MemberList.tsx:94-104 | toggling an id twice restores the list when its members are active or suspended |
| MemberListPage.WriteToggledNone | pages/MemberList.tsx:94-104 | if no shown member has the id, the toggle writes nothing to the store |
| MemberListPage.WriteToggledUnique | pages/MemberList.tsx:94-104 | if exactly one shown member has the id, the toggle's writes amount to one `updateMember` with its toggled copy |
| MemberListPage.MemberList.HandleToggleStatus | pages/MemberList.tsx:94-105 | the shown list is toggled by id; the store receives the toggled copies in list order, which for unique ids is one replacement and for an absent id is nothing |
| MemberListPage.FormDraft | pages/MemberList.tsx:71-79 | the draft is active, joins today, carries the form's name, phone and photos, and has total and remaining tickets both equal to the chosen count |
| MemberListPage.MemberList.HandleAddMember | pages/MemberList.tsx:67-83 | with an empty name or phone nothing changes; otherwise the new member is appended to the store and the shown list, it is active with total and remaining tickets equal to the chosen count and at most one face image, and the form is reset and closed |
| MemberListPage.MemberList.CaptureFace | pages/MemberList.tsx:39-56 | only while the camera is open and no photo is held, the frame becomes the one photo and the camera closes; otherwise nothing changes; at most one photo is ever held |
| MemberListPage.MemberList.constructor | pages/MemberList.tsx:8-19 | the page opens on the stored members, with an empty search, a closed form with no name, no phone and 10 tickets, no photo and the camera off |
| MemberListPage.MemberList.SetSearchTerm | pages/MemberList.tsx:131 | the search term becomes the typed text; nothing else changes |
| MemberListPage.MemberList.EditForm | pages/MemberList.tsx:241-260 | the form's name, phone and ticket count become the typed values; nothing else changes |
| MemberListPage.MemberList.OpenAddModal | pages/MemberList.tsx:115 | the add-member form opens; nothing else changes |
| MemberListPage.MemberList.StartFaceRegistration | pages/MemberList.tsx:25-37 | the camera view is open exactly when the camera started |
| MemberListPage.MemberList.RetakeSamples | pages/MemberList.tsx:319 | the photo is dropped and the camera restarted |
| MemberListPage.MemberList.StopCamera | pages/MemberList.tsx:58-65 | the camera view is closed; nothing else changes |
| MemberListPage.MemberList.CloseModal | pages/MemberList.tsx:85-92 | the form is closed and reset to an empty name and phone, 10 tickets and no photo |

## Left out

- Face recognition (`services/faceRecognition.ts`) is not part of this
  model. Loading the models is an asynchronous single-flight cache.
  Extracting a descriptor is a call into a face-detection library. Matching
  hands the search to that library and computes a floating-point confidence.
- The kiosk camera, the interval timer and the auto-detection that picks a
  random member (pages/Kiosk.tsx:19-80) are left out, because they depend on
  the camera, the clock and randomness. So the `Detecting` status is declared
  but never entered, and the "face not recognised" and "camera permission"
  errors do not occur. The code has no multi-frame confirmation, and none is
  modelled.
- Persistence is left out. The browser store and its JSON encoding become
  the in-memory fields of `Ledger`. The seeding of an empty store with sample
  members (services/storage.ts:32-39) is left out, so `GetMembers` returns
  the list as stored.
- The optional profile fields (birth date, gender, parent phone, email,
  address) and the attendance record's constant `type: 'check-in'` are left
  out. `addMember` fills in defaults for the profile fields (empty strings,
  and `'Male'` for the gender), and the other operations only copy them;
  neither is modelled. A missing ticket history is modelled as an empty one,
  which is how the source reads it (`|| []`).
- Number coercions are left out. The source's `Number(...)` and
  `|| 0` on ticket counts are read as the integers they already are.
  The ticket field of the add-member form is read with `parseInt`; the
  model takes the parsed integer, so `EditForm` does not model the `NaN` an
  empty or non-numeric field gives.
- `resizeImage` and `generateDummyMembers` are left out, because they use
  canvas scaling, randomness and the clock.
- The developer page, the dashboard, the attendance list page, routing and
  all rendering are left out.
- The camera access is left out. `getUserMedia` is replaced by a boolean
  `cameraStarted`, and the failure alert is left out. `CaptureFace` assumes
  the canvas is mounted and its 2D context is available, as it is whenever
  the form is open.
- KioskPage.Kiosk.Timeout models a single pending timer. A newer timer
  replaces an older one, whereas the browser would run both. On these
  screens a new timer is only scheduled from a screen that has none pending,
  except when the selection screen is cancelled.
- React applies state updates after the handler returns, so the source's
  handlers read the values from before the event. The model applies each
  update in order. The one difference is that `captureFace` tests
  `capturedImages.length === 0` on the old value, which the model mirrors by
  reading the length before appending.
- The storage methods whose source throws return `Err` with the message
  instead of throwing.
- The keypad buttons that are only shown in some states (the keypad only in
  manual mode while idle, the candidates only while selecting) are not
  preconditions of the methods. The methods behave as the handlers do
  whenever they are called.
