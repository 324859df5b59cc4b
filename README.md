# Habitora frontend — a verified model of its core

Habitora is a property-management web application. An owner registers a building (floors and
rooms), signs rental contracts with tenants and tracks the monthly payments. This project models
the decision logic of its browser frontend:

- the payment ledger kept in browser storage: contract metadata, the generated payment schedule,
  marking a payment paid, and finalising a contract;
- the contract helpers built on it: sign and generate, confirm a payment;
- the onboarding form: floor and room counts with clamping, the owner's floor, the two steps,
  and the submitted payload;
- the rooms grid: floor labels, the floor and room ordering, flattening, pages of nine, and
  grouping a page by floor;
- the new-contract dialog: room options, the selected room, the deposit rule, the ordered
  submit checks, the request, and the reset after success;
- the payments page: active invoices, the sorted tenant list, the tenant filter, the summary
  figures and the tab filters;
- the contracts table (status badge, row actions), the tenants table (initials, pages of ten),
  the side-navigation active rule, `stripBase64Prefix`, the auth store, and the tenant mapper.

One Dafny module models each source file. Helper modules hold the JavaScript behaviour those
files rely on:

- `Wrappers`: the Option and Result types.
- `Text`: digits, `String(n)`, `split`/`join`, `trim`, `toUpperCase`, `startsWith` and a
  code-point string order.
- `JsNumber`: `Number(text)` as `NaN | Num(real)`, and truncation.
- `Seqs`: filter, and a stable sort by a total preorder.
- `Paging`: page slices.
- `Calendar`: the `Date` month arithmetic behind `addMonthsToISODate`, and `formatISOToHuman`.

`NewContractDialog.tsx` carries its own copies of `addMonthsToISODate` (as `addMonthsToISO`) and
`formatISOToHuman`. They are identical to the ones in `paymentsStorage.ts`, so both files use
`Calendar`.

State that the source changes in place is a class:

- `PaymentsStorage.Ledger`: two stores, each a map from property id to a list.
- `OnboardingForm.Form`, `GridRooms.Pager`, `NewContractDialog.Dialog`, `PaymentsPage.Screen`,
  `TenantsTable.Pager` and `AuthStore.Store`.

Each state-changing method states its whole new state in terms of a pure function of the old
state. The lemmas beside those functions carry the properties: idempotence, well-formedness of
payment ids, round trips, partitions and orderings.

## Model

| member | source | states |
|---|---|---|
| PaymentsStorage.UpsertMeta | src/feature/payments/lib/paymentsStorage.ts:104-113 | the metadata list after `upsertContractMeta`: the entry with that id is replaced at its index, or the metadata is appended; `UpsertThenFind`, `UpsertKeepsUnique` and `IndexAfterUpdate` prove what it means |
| PaymentsStorage.SignContract | src/feature/payments/lib/paymentsStorage.ts:115-123 | the list after `markContractSigned`: the entry found by id becomes signed and `VIGENTE`, an unknown id changes nothing; `SignThenRead` and `SignedOfOther` prove it |
| PaymentsStorage.WithState | src/feature/payments/lib/paymentsStorage.ts:125-136 | the list after `setContractState`: the entry found by id gets the new state and keeps its other fields, an unknown id changes nothing; `WithStateThenRead` and `SignedOfOther` prove it |
| PaymentsStorage.ContractIndex | src/feature/payments/lib/paymentsStorage.ts:104-113 | `findIndex` by contract id: the first matching index, or -1 exactly when no entry matches |
| PaymentsStorage.FindContract | src/feature/payments/lib/paymentsStorage.ts:146-152 | `getContractMeta` finds an entry exactly when one has that contract id, and the entry found has that id |
| PaymentsStorage.ContractSigned | src/feature/payments/lib/paymentsStorage.ts:138-144 | `isContractSigned` is true exactly when an entry with that id is marked signed, so it is false for an unknown contract |
| PaymentsStorage.UpsertThenFind | src/feature/payments/lib/paymentsStorage.ts:104-113 | after an upsert, reading that contract gives the new metadata, and every other contract reads as before |
| PaymentsStorage.UpsertKeepsUnique | src/feature/payments/lib/paymentsStorage.ts:104-113 | an upsert never creates a second entry for a contract id; the list grows by one only for a new id |
| PaymentsStorage.SignThenRead | src/feature/payments/lib/paymentsStorage.ts:115-123 | signing sets `signed` and `VIGENTE` on a known contract, whatever its previous state, and changes nothing for an unknown one or for other contracts |
| PaymentsStorage.WithStateThenRead | src/feature/payments/lib/paymentsStorage.ts:125-136 | `setContractState` sets the state of a known contract only; other entries and every signed flag are unchanged |
| PaymentsStorage.IndexAfterUpdate | src/feature/payments/lib/paymentsStorage.ts:104-113 | an in-place write or an append keeps the contract at the index it had, or puts it at the end |
| PaymentsStorage.IndexOfOther | src/feature/payments/lib/paymentsStorage.ts:104-123 | writing one contract's entry never changes how another contract is found |
| PaymentsStorage.SignedOfOther | src/feature/payments/lib/paymentsStorage.ts:115-136 | writing one contract's entry never changes whether another contract reads as signed |
| PaymentsStorage.HasPaymentsFor | src/feature/payments/lib/paymentsStorage.ts:174-175 | the "already generated" test holds exactly when some record has that contract id |
| PaymentsStorage.PaymentIndex | src/feature/payments/lib/paymentsStorage.ts:205-207 | `findIndex` by payment id: the first matching record, or -1 exactly when none matches |
| PaymentsStorage.PaymentId | src/feature/payments/lib/paymentsStorage.ts:184 | the id `${contractId}-${k}` of an installment; `PaymentIdOwner` and `PaymentIdInjective` prove that it names its contract and that distinct installments get distinct ids |
| PaymentsStorage.OwnerPrefix | src/feature/payments/lib/paymentsStorage.ts:184 | the contract id and dash that every id of that contract starts with (`PaymentIdOwner`) |
| PaymentsStorage.Installment | src/feature/payments/lib/paymentsStorage.ts:179-194 | the record pushed on loop iteration i: id k = i + 1, the contract's tenant, room and rent, due i months after the start, pending and unpaid; `InstallmentFields` states these fields |
| PaymentsStorage.MonthCount | src/feature/payments/lib/paymentsStorage.ts:179 | the number of loop iterations, which is the month count, or none when it is negative; `GenerateNoMonths` covers the empty case |
| PaymentsStorage.Schedule | src/feature/payments/lib/paymentsStorage.ts:179-195 | the generated list has `months` records, the i-th being installment i |
| PaymentsStorage.InstallmentFields | src/feature/payments/lib/paymentsStorage.ts:179-195 | installment i has id `c-(i+1)`, status `PENDIENTE`, empty method, amount the monthly rent, tenant and room copied, and due date `addMonthsToISODate(start, i)` |
| PaymentsStorage.DashAfterNumber | src/feature/payments/lib/paymentsStorage.ts:184 | in an id `c-k` the first dash after the sign is the one that ends the contract number |
| PaymentsStorage.PaymentIdOwner | src/feature/payments/lib/paymentsStorage.ts:184 | an id `c-k` starts with `other-` only when `c == other` |
| PaymentsStorage.PaymentIdInjective | src/feature/payments/lib/paymentsStorage.ts:184 | two generated ids are equal only for the same contract and installment number |
| PaymentsStorage.ScheduleWellFormed | src/feature/payments/lib/paymentsStorage.ts:179-195 | a generated schedule has unique ids, each owned by its contract |
| PaymentsStorage.AppendWellFormed | src/feature/payments/lib/paymentsStorage.ts:197 | appending a well-formed list with disjoint ids keeps the ids unique |
| PaymentsStorage.ScheduleIdsFresh | src/feature/payments/lib/paymentsStorage.ts:174-184 | when no record belongs to the contract, no stored id clashes with a new schedule id |
| PaymentsStorage.GenerateSaves | src/feature/payments/lib/paymentsStorage.ts:171-175 | generation saves exactly when the contract has metadata and no record of it exists yet; `GenerateOnce` and `GenerateIdempotent` use it |
| PaymentsStorage.Generate | src/feature/payments/lib/paymentsStorage.ts:166-198 | the payment list after `generatePaymentsForContract`; `GenerateContents`, `GenerateNoMonths`, `GenerateIdempotent` and `GenerateWellFormed` prove what it appends and what it keeps |
| PaymentsStorage.GenerateWellFormed | src/feature/payments/lib/paymentsStorage.ts:166-198 | generation keeps payment ids unique |
| PaymentsStorage.GenerateIdempotent | src/feature/payments/lib/paymentsStorage.ts:171-175 | generating twice gives the same list as generating once |
| PaymentsStorage.GenerateOnce | src/feature/payments/lib/paymentsStorage.ts:171-175 | after one generation, later generations change nothing, even if the metadata has changed since |
| PaymentsStorage.GenerateNoMonths | src/feature/payments/lib/paymentsStorage.ts:177-197 | zero months leaves the list unchanged |
| PaymentsStorage.GenerateContents | src/feature/payments/lib/paymentsStorage.ts:166-198 | when metadata exists and no record has the contract, the old list is a prefix and exactly the schedule is appended |
| PaymentsStorage.MarkPaid | src/feature/payments/lib/paymentsStorage.ts:200-221 | the list after `markPaymentAsPaid`; `MarkPaidEffect`, `MarkPaidIdempotent` and `MarkPaidWellFormed` prove its effect |
| PaymentsStorage.MarkPaidEffect | src/feature/payments/lib/paymentsStorage.ts:200-221 | an unknown id leaves the list unchanged; otherwise the length is kept and only the first match changes, to `PAGADO` with the method and today's date |
| PaymentsStorage.MarkPaidIdempotent | src/feature/payments/lib/paymentsStorage.ts:200-221 | marking the same payment twice equals marking it once |
| PaymentsStorage.MarkPaidWellFormed | src/feature/payments/lib/paymentsStorage.ts:200-221 | marking a payment paid keeps the ids unique and owned |
| PaymentsStorage.KeepAfterFinalize | src/feature/payments/lib/paymentsStorage.ts:229-237 | the list after `onContractFinalized`; `FinalizeEffect`, `FinalizeKeepsOrder`, `FinalizeIdempotent` and `FinalizeWellFormed` prove what survives |
| PaymentsStorage.FinalizeEffect | src/feature/payments/lib/paymentsStorage.ts:229-237 | a record survives finalising exactly when it is not a pending record of that contract, so paid records survive; order and multiplicity are in `FinalizeKeepsOrder` |
| PaymentsStorage.FinalizeKeepsOrder | src/feature/payments/lib/paymentsStorage.ts:229-237 | finalising a concatenation is the concatenation of the finalised parts, so the survivors keep their order and multiplicity; a list with no pending record of the contract is unchanged |
| PaymentsStorage.FinalizeWellFormed | src/feature/payments/lib/paymentsStorage.ts:229-237 | finalising keeps the ids unique and owned |
| PaymentsStorage.FinalizeIdempotent | src/feature/payments/lib/paymentsStorage.ts:229-237 | finalising twice equals finalising once |
| PaymentsStorage.Ledger.constructor | src/feature/payments/lib/paymentsStorage.ts:70-76 | both stores start empty, and the date rules are the calendar and the given period label |
| PaymentsStorage.Ledger.ContractsOf | src/feature/payments/lib/paymentsStorage.ts:90-95 | `loadContractsMeta`: the stored list, or the empty list for a property with nothing stored |
| PaymentsStorage.Ledger.PaymentsOf | src/feature/payments/lib/paymentsStorage.ts:156-159 | `loadPayments`, and so `getPaymentsForProperty`: the stored list, or the empty list for a property with nothing stored |
| PaymentsStorage.Ledger.UpsertContractMeta | src/feature/payments/lib/paymentsStorage.ts:104-113 | only this property's contract list changes, to the upsert of the old list |
| PaymentsStorage.Ledger.MarkContractSigned | src/feature/payments/lib/paymentsStorage.ts:115-123 | an unknown contract changes nothing; otherwise only this property's list changes, to the signed list |
| PaymentsStorage.Ledger.SetContractState | src/feature/payments/lib/paymentsStorage.ts:125-136 | an unknown contract changes nothing; otherwise only that entry's state changes |
| PaymentsStorage.Ledger.GeneratePaymentsForContract | src/feature/payments/lib/paymentsStorage.ts:166-198 | the loop appends the schedule one record at a time; the new state is the generation function of the old one, and the store stays well-formed |
| PaymentsStorage.Ledger.MarkPaymentAsPaid | src/feature/payments/lib/paymentsStorage.ts:200-221 | stores and returns the marked list, leaves storage unchanged for an unknown id, and keeps the store well-formed |
| PaymentsStorage.Ledger.OnContractFinalized | src/feature/payments/lib/paymentsStorage.ts:229-237 | cancels the contract if it is known, and keeps only the non-pending-of-that-contract records of the property |
| ContractsLocalStorage.IsContractSigned | src/feature/contracts/utils/contractsLocalStorage.ts:16-18 | a pure read: true exactly when the property lists that contract as signed |
| ContractsLocalStorage.MarkContractSignedAndGeneratePayments | src/feature/contracts/utils/contractsLocalStorage.ts:20-26 | an unknown contract changes neither store; a known one is signed and `VIGENTE`, and its payments are the generation over the signed metadata |
| ContractsLocalStorage.SignAndGenerate | src/feature/contracts/utils/contractsLocalStorage.ts:20-26 | the two lists after signing and then generating; `SignAndGenerateOfNew`, `ScheduleOfSigned`, `SignAndGenerateOfUnknown` and `SignAndGenerateIdempotent` prove its effect |
| ContractsLocalStorage.SignKeepsListing | src/feature/contracts/utils/contractsLocalStorage.ts:20-26 | signing keeps the contract at the same index and the list at the same length |
| ContractsLocalStorage.SignAndGenerateOfNew | src/feature/contracts/utils/contractsLocalStorage.ts:20-26 | for a known contract without payments, the result is the old list followed by `months` pending records |
| ContractsLocalStorage.ScheduleOfSigned | src/feature/contracts/utils/contractsLocalStorage.ts:20-26 | signing first does not change the schedule that is generated |
| ContractsLocalStorage.SignAndGenerateOfUnknown | src/feature/contracts/utils/contractsLocalStorage.ts:20-26 | for an unknown contract, neither list changes |
| ContractsLocalStorage.SignAndGenerateIdempotent | src/feature/contracts/utils/contractsLocalStorage.ts:20-26 | running sign-and-generate twice gives the same lists as running it once |
| ContractsLocalStorage.ConfirmPayment | src/feature/contracts/utils/contractsLocalStorage.ts:36-46 | has the effect of `markPaymentAsPaid` on the stored payments and returns nothing |
| ContractsLocalStorage.PaidSurvivesFinalize | src/feature/contracts/utils/contractsLocalStorage.ts:36-49 | a confirmed payment is still there, paid, after its contract is finalised |
| OnboardingForm.Clamp | src/feature/start/components/OnboardingForm.tsx:55-57 | the result lies in the range, equals the input inside it, and equals the nearer bound outside it |
| OnboardingForm.PisosOf | src/feature/start/components/OnboardingForm.tsx:53-57 | the floor count lies in [1, 10]; NaN becomes 1; a value in range is kept |
| OnboardingForm.RoomsOf | src/feature/start/components/OnboardingForm.tsx:64-70 | the room count lies in [1, 8]; NaN becomes 1; a value in range is kept |
| OnboardingForm.EmptyFieldIsMinimum | src/feature/start/components/OnboardingForm.tsx:241 | clearing a number input reads as 0 and is clamped to the minimum |
| OnboardingForm.ArrayLength | src/feature/start/components/OnboardingForm.tsx:58-60 | the length `Array.from({ length: x })` gives: 0 for a non-positive count, otherwise its integer part; `ResizeProperties` uses it |
| OnboardingForm.ResizeRooms | src/feature/start/components/OnboardingForm.tsx:58-60 | the new array has the floor count's length; nonzero entries below it keep their values; the others are 1 |
| OnboardingForm.ResizeProperties | src/feature/start/components/OnboardingForm.tsx:58-60 | resizing keeps entries in range, shrinking is truncation, and growing after shrinking forgets the dropped floors |
| OnboardingForm.OwnerFloorAfter | src/feature/start/components/OnboardingForm.tsx:61 | the owner's floor becomes none exactly when it exceeds the new floor count; otherwise it is unchanged |
| OnboardingForm.FloorOptions | src/feature/start/components/OnboardingForm.tsx:265-269 | one option per floor |
| OnboardingForm.FloorOptionValue | src/feature/start/components/OnboardingForm.tsx:265-269 | option i reads back as floor number i + 1 |
| OnboardingForm.Form.constructor | src/feature/start/components/OnboardingForm.tsx:29-35 | step 1, empty texts, one floor, no owner floor, one room |
| OnboardingForm.Form.SetNombre | src/feature/start/components/OnboardingForm.tsx:214 | changes only the name |
| OnboardingForm.Form.SetDireccion | src/feature/start/components/OnboardingForm.tsx:225 | changes only the address |
| OnboardingForm.Form.HandlePisosChange | src/feature/start/components/OnboardingForm.tsx:53-62 | the floor count is clamped, the rooms array resized to it, and the owner floor dropped when out of range |
| OnboardingForm.Form.HandleHabitacionChange | src/feature/start/components/OnboardingForm.tsx:64-73 | stores the clamped value at the index and changes nothing else |
| OnboardingForm.Form.SelectPisoResidencia | src/feature/start/components/OnboardingForm.tsx:248-270 | "none" clears the owner floor; a floor option sets it to that floor's number |
| OnboardingForm.Form.HandleNext | src/feature/start/components/OnboardingForm.tsx:75-78 | moves to step 2 and keeps the fields |
| OnboardingForm.Form.HandleBack | src/feature/start/components/OnboardingForm.tsx:80 | returns to step 1 and keeps the fields |
| OnboardingForm.Form.HandleSubmit | src/feature/start/components/OnboardingForm.tsx:82-94 | the payload carries the floor count and rooms array unchanged and maps a missing owner floor to 0 |
| Calendar.DaysInMonth | src/feature/payments/lib/paymentsStorage.ts:42-51 | every month has 28 to 31 days |
| Calendar.NextMonth | src/feature/payments/lib/paymentsStorage.ts:42-51 | the following month is a valid month, starting at day 1 |
| Calendar.PrevMonth | src/feature/payments/lib/paymentsStorage.ts:42-51 | the preceding month is a valid month, starting at day 1 |
| Calendar.RollForward | src/feature/payments/lib/paymentsStorage.ts:42-51 | a day past the month's end rolls into the next months and gives a valid date |
| Calendar.RollBackward | src/feature/payments/lib/paymentsStorage.ts:42-51 | a day of 0 or less rolls back into the previous months and gives a valid date |
| Calendar.MakeDay | src/feature/payments/lib/paymentsStorage.ts:42-51 | the `Date` constructor normalises any year, month and day to a valid date |
| Calendar.AddMonths | src/feature/payments/lib/paymentsStorage.ts:42-51 | `setMonth(getMonth() + k)` gives a valid date |
| Calendar.StartDate | src/feature/payments/lib/paymentsStorage.ts:42-45 | a parsed start date is valid |
| Calendar.MakeDayOfValid | src/feature/payments/lib/paymentsStorage.ts:42-45 | a valid date passes through the constructor unchanged |
| Calendar.AddMonthsZero | src/feature/payments/lib/paymentsStorage.ts:42-51 | adding zero months leaves the date unchanged |
| Calendar.AddMonthsDay | src/feature/payments/lib/paymentsStorage.ts:42-51 | the day is kept when the target month has it; otherwise the surplus, at most 3 days, rolls into the next month |
| Calendar.FormatISO | src/feature/payments/lib/paymentsStorage.ts:47-50 | `formatISO`: year, two-digit month and two-digit day joined by dashes; `FormatISOSplit` proves it splits back into those three pieces |
| Calendar.AddMonthsToISODate | src/feature/payments/lib/paymentsStorage.ts:42-51 | `addMonthsToISODate`: the start date moved by k months with day overflow rolled forward, or "NaN-NaN-NaN" when the date is invalid; `AddMonthsToISODateOfISO`, `AddZeroMonthsToISODate`, `AddMonthsToISODateShape` and `January31PlusOneMonth` prove its behaviour |
| Calendar.FormatISOToHuman | src/feature/payments/lib/paymentsStorage.ts:53-57 | `formatISOToHuman`: the empty string stays empty, otherwise day/month/year from the dash-separated pieces; `FormatISOToHumanOfISO` and `FormatISOToHumanReorders` prove it |
| Calendar.FormatISOSplit | src/feature/payments/lib/paymentsStorage.ts:47-50 | splitting a formatted date at "-" gives its year, month and day texts |
| Calendar.FormatISOToHumanOfISO | src/feature/payments/lib/paymentsStorage.ts:53-57 | a formatted date reads back as zero-padded `dd/mm/yyyy` |
| Calendar.FormatISOToHumanReorders | src/feature/contracts/components/NewContractDialog.tsx:54-59 | "" stays ""; otherwise `y-m-d` becomes `d/m/y` |
| Calendar.StartDateOfISO | src/feature/payments/lib/paymentsStorage.ts:42-45 | parsing a formatted date with a year of at least 100 gives the date back |
| Calendar.AddMonthsToISODateOfISO | src/feature/payments/lib/paymentsStorage.ts:42-51 | on ISO text, `addMonthsToISODate` is month addition on the date it denotes |
| Calendar.AddZeroMonthsToISODate | src/feature/payments/lib/paymentsStorage.ts:42-51 | zero months returns a well-formed input unchanged |
| Calendar.AddMonthsToISODateShape | src/feature/payments/lib/paymentsStorage.ts:42-51 | the result is "NaN-NaN-NaN" or the zero-padded text of a valid date |
| Calendar.January31PlusOneMonth | src/feature/contracts/components/NewContractDialog.tsx:42-52 | one month after 2025-01-31 is 2025-03-03, because February's missing days roll over |
| GridRooms.FloorLabel | src/feature/properties/components/GridRooms.tsx:17-38 | the label of a floor number: Spanish ordinals for floors 1 to 8, "Piso n" otherwise; `FloorLabelProperties` proves both cases |
| GridRooms.FloorLabelProperties | src/feature/properties/components/GridRooms.tsx:17-38 | floors 1 to 8 have names; any other n is "Piso n"; different floors get different labels |
| GridRooms.CodeLe | src/feature/properties/components/GridRooms.tsx:58-67 | the room code order: numbers first by value, then other codes by string order; `CodeLeTotal` and `CodeLeTransitive` prove it is a total preorder |
| GridRooms.RoomLe | src/feature/properties/components/GridRooms.tsx:58-67 | the room comparator, lifted from codes to rooms; `RoomOrder` and `RoomLePreorder` prove its cases and that it is a total preorder |
| GridRooms.FloorLe | src/feature/properties/components/GridRooms.tsx:53-56 | floors ordered by floor number; `FloorLePreorder` proves it is a total preorder |
| GridRooms.RoomOrder | src/feature/properties/components/GridRooms.tsx:58-67 | numeric codes ascend by value and come before non-numeric ones; non-numeric codes use string order |
| GridRooms.RoomLePreorder | src/feature/properties/components/GridRooms.tsx:58-67 | the room comparison is a total preorder, which the sort requires; `Seqs.SortByStable` proves the sort keeps tied rooms in their original order |
| GridRooms.FloorLePreorder | src/feature/properties/components/GridRooms.tsx:53-56 | the floor comparison is a total preorder |
| GridRooms.CodeLeTotal | src/feature/properties/components/GridRooms.tsx:58-67 | any two room codes are comparable |
| GridRooms.CodeLeTransitive | src/feature/properties/components/GridRooms.tsx:58-67 | the room-code comparison is transitive |
| GridRooms.SortRoomsOfEach | src/feature/properties/components/GridRooms.tsx:57-68 | each floor keeps its number and the multiset of its rooms, and its rooms end up sorted |
| GridRooms.FloorsByNumber | src/feature/properties/components/GridRooms.tsx:53-56 | the floors that have rooms, sorted by floor number; `SortedFloorsComplete` proves none is lost |
| GridRooms.SortedFloors | src/feature/properties/components/GridRooms.tsx:52-69 | `sortedFloors`; `SortedFloorsOrdered`, `SortedFloorsFrom` and `SortedFloorsComplete` prove it holds exactly the floors with rooms, ascending, each with its rooms sorted |
| GridRooms.SortedFloorsOrdered | src/feature/properties/components/GridRooms.tsx:52-69 | the sorted floors ascend by floor number, none is empty, and each floor's rooms are sorted |
| GridRooms.SortedFloorsFrom | src/feature/properties/components/GridRooms.tsx:52-69 | every listed floor comes from the input with the same number and rooms |
| GridRooms.SortedFloorsComplete | src/feature/properties/components/GridRooms.tsx:53-56 | every input floor with rooms is listed |
| GridRooms.AllRooms | src/feature/properties/components/GridRooms.tsx:72-79 | the flat list has as many rooms as the floors together |
| GridRooms.AllRoomsRooms | src/feature/properties/components/GridRooms.tsx:72-79 | the flat list, without floor tags, is the floors' rooms concatenated in order |
| GridRooms.UntagAppend | src/feature/properties/components/GridRooms.tsx:72-79 | dropping floor tags distributes over concatenation |
| GridRooms.EmptyStateExactly | src/feature/properties/components/GridRooms.tsx:81-90 | the empty message is shown exactly when no input floor has a room |
| GridRooms.TotalPages | src/feature/properties/components/GridRooms.tsx:93 | at least 1, and for n > 0 the ceiling of n / 9 |
| GridRooms.PageRooms | src/feature/properties/components/GridRooms.tsx:99-100 | a page holds at most 9 rooms, starting at index `(page-1)*9` |
| GridRooms.DisplayFrom | src/feature/properties/components/GridRooms.tsx:140-148 | the first number of the "Mostrando" line, 0 for an empty grid; `DisplayRangeMatchesPage` ties it to the page shown |
| GridRooms.DisplayTo | src/feature/properties/components/GridRooms.tsx:140-148 | the last number of the "Mostrando" line; `DisplayRangeMatchesPage` ties it to the page shown |
| GridRooms.DisplayRangeMatchesPage | src/feature/properties/components/GridRooms.tsx:140-148 | the "a to b of n" range lies within 1..n and counts exactly the rooms on the page |
| GridRooms.Pager.constructor | src/feature/properties/components/GridRooms.tsx:92 | the page starts at 1 |
| GridRooms.Pager.Sync | src/feature/properties/components/GridRooms.tsx:95-97 | the effect pulls a page past the end back to the last page and keeps any other |
| GridRooms.Pager.Previous | src/feature/properties/components/GridRooms.tsx:158-161 | steps back one page, never below 1 |
| GridRooms.Pager.Next | src/feature/properties/components/GridRooms.tsx:183-187 | steps forward one page, never past the last |
| GridRooms.Pager.Select | src/feature/properties/components/GridRooms.tsx:165-178 | a page link sets that page |
| GridRooms.AddToGroups | src/feature/properties/components/GridRooms.tsx:105-110 | one `forEach` step: the room joins its floor's entry, which is created at the end if new; `AddToGroupsCorrect`, `AddKeepsRooms` and `AddCoversFloors` prove it keeps the grouping invariant |
| GridRooms.Groups | src/feature/properties/components/GridRooms.tsx:103-113 | the map values after the `forEach`; `GroupsCorrect` proves each entry holds exactly its floor's rooms of the page, in page order |
| GridRooms.GroupIndex | src/feature/properties/components/GridRooms.tsx:103-113 | the `Map` lookup finds the group of that floor, or none exactly when no group has it |
| GridRooms.GroupsCorrect | src/feature/properties/components/GridRooms.tsx:103-113 | grouping gives one group per floor, with that floor's rooms in page order |
| GridRooms.AddToGroupsCorrect | src/feature/properties/components/GridRooms.tsx:105-110 | adding one room keeps the grouping correct |
| GridRooms.AddKeepsRooms | src/feature/properties/components/GridRooms.tsx:105-110 | adding a room appends it to its floor's group and leaves other groups alone |
| GridRooms.AddCoversFloors | src/feature/properties/components/GridRooms.tsx:105-110 | after adding a room, every floor present has a group |
| GridRooms.NoRoomsWithoutGroup | src/feature/properties/components/GridRooms.tsx:103-113 | a floor without a group has no rooms on the page |
| GridRooms.SortedDistinctAscending | src/feature/properties/components/GridRooms.tsx:112 | sorting groups with distinct floors gives strictly ascending floor numbers |
| GridRooms.GroupByFloor | src/feature/properties/components/GridRooms.tsx:103-113 | the loop groups the page by floor; the groups ascend and hold exactly each floor's rooms in page order |
| GridRooms.SortedGroupsCorrect | src/feature/properties/components/GridRooms.tsx:112 | sorting keeps the grouping correct and makes it ascending |
| NewContractDialog.FloorOptions | src/feature/contracts/components/NewContractDialog.tsx:86-96 | one option per priced room of the floor |
| NewContractDialog.FloorOptionsExactly | src/feature/contracts/components/NewContractDialog.tsx:86-96 | an option is offered for a floor exactly when it comes from a room of that floor with rent > 0 |
| NewContractDialog.RoomOptions | src/feature/contracts/components/NewContractDialog.tsx:83-100 | the room options; `RoomOptionsExactly`, `RoomOptionsAppend`, `RoomOptionsOfFloor` and `RoomOptionsPriced` prove it lists exactly the priced rooms, in floor order |
| NewContractDialog.RoomOptionsExactly | src/feature/contracts/components/NewContractDialog.tsx:83-98 | an option is listed exactly when some floor offers it |
| NewContractDialog.RoomOptionsAppend | src/feature/contracts/components/NewContractDialog.tsx:83-98 | options follow floor order: the options of `a + b` are those of `a`, then those of `b` |
| NewContractDialog.RoomOptionsOfFloor | src/feature/contracts/components/NewContractDialog.tsx:86-96 | within a floor, options follow the order of its priced rooms |
| NewContractDialog.RoomOptionsPriced | src/feature/contracts/components/NewContractDialog.tsx:83-98 | every option has a rent greater than 0 |
| NewContractDialog.SelectedRoom | src/feature/contracts/components/NewContractDialog.tsx:102-104 | a selected room is one of the options, and its id prints as the selected value |
| NewContractDialog.SelectedRoomFound | src/feature/contracts/components/NewContractDialog.tsx:102-104 | a room is selected exactly when some option carries the selected value |
| NewContractDialog.SelectedRoomFirst | src/feature/contracts/components/NewContractDialog.tsx:102-104 | the selected room is the first option that carries the value |
| NewContractDialog.MonthlyRent | src/feature/contracts/components/NewContractDialog.tsx:105 | the rent of the selected room, 0 when none is selected; `DepositRule` proves it |
| NewContractDialog.Deposit | src/feature/contracts/components/NewContractDialog.tsx:106 | the deposit, one month of rent; `DepositRule` proves it |
| NewContractDialog.EndDate | src/feature/contracts/components/NewContractDialog.tsx:108-110 | the end date, computed only when both a start date and a duration are set, else empty; `Submission` sends it as `fechaFin` |
| NewContractDialog.DepositRule | src/feature/contracts/components/NewContractDialog.tsx:105-106 | the deposit equals the monthly rent, is 0 with no selection, and otherwise is the selected room's rent |
| NewContractDialog.Submission | src/feature/contracts/components/NewContractDialog.tsx:126-162 | each rejection holds exactly when its check fails and the earlier ones pass, in source order; success sends the form's fields, `fechaFin` equal to the end date shown, and the deposit |
| NewContractDialog.AcceptedSubmission | src/feature/contracts/components/NewContractDialog.tsx:152-161 | an accepted request is for a listed, priced room, with the deposit its rent and `fechaFin = addMonthsToISO(start, months)` |
| NewContractDialog.ResetRejects | src/feature/contracts/components/NewContractDialog.tsx:113-119 | the reset form cannot be submitted: it fails the first check |
| NewContractDialog.Dialog.constructor | src/feature/contracts/components/NewContractDialog.tsx:61-66 | closed, empty ids and date, 6 months |
| NewContractDialog.Dialog.SetOpen | src/feature/contracts/components/NewContractDialog.tsx:61 | changes only the open flag |
| NewContractDialog.Dialog.SelectTenant | src/feature/contracts/components/NewContractDialog.tsx:63 | changes only the tenant |
| NewContractDialog.Dialog.SelectRoom | src/feature/contracts/components/NewContractDialog.tsx:64 | changes only the room |
| NewContractDialog.Dialog.SetStartDate | src/feature/contracts/components/NewContractDialog.tsx:65 | changes only the start date |
| NewContractDialog.Dialog.SelectDuration | src/feature/contracts/components/NewContractDialog.tsx:286-297 | a listed duration is stored as its number and nothing else changes |
| NewContractDialog.Dialog.Submit | src/feature/contracts/components/NewContractDialog.tsx:126-162 | the outcome is the submission over the dialog's current fields |
| NewContractDialog.Dialog.OnCreated | src/feature/contracts/components/NewContractDialog.tsx:113-119 | success resets to empty ids and date, 6 months, and closes the dialog |
| PaymentsPage.Active | src/feature/payments/pages/PaymentsPage.tsx:39 | the invoices that are not cancelled; `ActiveExactly` proves it keeps exactly those, in order |
| PaymentsPage.ActiveExactly | src/feature/payments/pages/PaymentsPage.tsx:39 | the active list is exactly the non-`CANCELADA` invoices, in order |
| PaymentsPage.SeenNames | src/feature/payments/pages/PaymentsPage.tsx:42-48 | the first-seen distinct tenant names; `SeenNamesProperties` proves it is duplicate-free and names exactly the tenants present |
| PaymentsPage.SeenNamesProperties | src/feature/payments/pages/PaymentsPage.tsx:42-48 | names collected into the `Map` have no duplicates and are exactly the names in the list |
| PaymentsPage.TenantNames | src/feature/payments/pages/PaymentsPage.tsx:42-50 | the loop and sort give a duplicate-free, sorted list holding exactly the active tenants' names |
| PaymentsPage.SortedNames | src/feature/payments/pages/PaymentsPage.tsx:49 | sorting keeps the names and their uniqueness |
| PaymentsPage.SortedDistinctStrict | src/feature/payments/pages/PaymentsPage.tsx:49 | a sorted list without duplicates is strictly ascending |
| PaymentsPage.ByTenant | src/feature/payments/pages/PaymentsPage.tsx:53-56 | the tenant filter; `ByTenantExactly` proves "todos" keeps all and a name keeps exactly that tenant's invoices |
| PaymentsPage.ByTenantExactly | src/feature/payments/pages/PaymentsPage.tsx:53-56 | "todos" keeps the whole list; any other name keeps exactly its invoices |
| PaymentsPage.Total | src/feature/payments/pages/PaymentsPage.tsx:62 | the sum of the rents of a list; `TotalAppend` and `TotalSplit` prove it adds over concatenation and over a partition |
| PaymentsPage.TotalAppend | src/feature/payments/pages/PaymentsPage.tsx:62 | the rent total of `a + b` is the sum of the totals |
| PaymentsPage.TotalSplit | src/feature/payments/pages/PaymentsPage.tsx:62 | complementary filters split the total |
| PaymentsPage.PendingPaidSplit | src/feature/payments/pages/PaymentsPage.tsx:59-62 | pending and paid partition the filtered list: multisets, counts and totals add up |
| PaymentsPage.OverdueArePending | src/feature/payments/pages/PaymentsPage.tsx:59-60 | overdue invoices are among the pending ones |
| PaymentsPage.Figures | src/feature/payments/pages/PaymentsPage.tsx:59-62 | the summary figures; `FiguresConsistent` proves their counts and totals add up |
| PaymentsPage.FiguresConsistent | src/feature/payments/pages/PaymentsPage.tsx:59-62 | the summary cards agree: pending and paid counts and totals add up, and overdue never exceeds pending |
| PaymentsPage.TabFilter | src/feature/payments/pages/PaymentsPage.tsx:154-159 | the state filter a tab asks for, an unknown tab keeping the current one; `TabFilterMapping` proves the four tabs reach four different filters and none asks for cancelled invoices |
| PaymentsPage.TabFilterMapping | src/feature/payments/pages/PaymentsPage.tsx:154-159 | the tabs map todas to none, pendientes to ABIERTA, vencidas to VENCIDA and pagadas to PAGADA; any other tab keeps the filter |
| PaymentsPage.Screen.constructor | src/feature/payments/pages/PaymentsPage.tsx:21-24 | no state filter, all tenants, no invoice selected, dialog closed |
| PaymentsPage.Screen.ChangeTab | src/feature/payments/pages/PaymentsPage.tsx:154-159 | changes only the state filter, as the tab mapping says |
| PaymentsPage.Screen.ChangeTenant | src/feature/payments/pages/PaymentsPage.tsx:23 | changes only the tenant filter |
| PaymentsPage.Screen.RegisterPayment | src/feature/payments/pages/PaymentsPage.tsx:28-31 | selects the invoice and opens the dialog |
| PaymentsPage.Screen.CloseDialog | src/feature/payments/pages/PaymentsPage.tsx:33-36 | clears the selection and closes the dialog |
| PaymentsPage.Screen.Shown | src/feature/payments/pages/PaymentsPage.tsx:39-62 | the list shown is the tenant filter over the active invoices, and the figures are computed from it |
| ContractsTable.StatusBadge | src/feature/contracts/components/ContractsTable.tsx:24-50 | the badge of a contract state; `StatusBadgeCases` and `StatusBadgeTone` prove its cases |
| ContractsTable.StatusBadgeCases | src/feature/contracts/components/ContractsTable.tsx:24-50 | `CANCELADO` shows "Cancelado" whatever the signature; `ACTIVO` shows "(firmado)" or "(sin firmar)"; any other state shows its raw text |
| ContractsTable.StatusBadgeTone | src/feature/contracts/components/ContractsTable.tsx:24-50 | each badge tone belongs to exactly one case |
| ContractsTable.CanSign | src/feature/contracts/components/ContractsTable.tsx:85 | a contract can be signed when it is `ACTIVO` and has no signature yet; `ActionsRules` proves when the button shows |
| ContractsTable.Actions | src/feature/contracts/components/ContractsTable.tsx:85-125 | the buttons of a row; `ActionsRules`, `TableActions` and `AtMostOneFinalizing` prove when each one shows and when it is disabled |
| ContractsTable.ActionsRules | src/feature/contracts/components/ContractsTable.tsx:85-125 | sign is offered exactly for an active unsigned contract; finalise exactly for an active one, disabled while that contract is being finalised |
| ContractsTable.TableActions | src/feature/contracts/components/ContractsTable.tsx:59-125 | one set of actions per row, in row order |
| ContractsTable.AtMostOneFinalizing | src/feature/contracts/components/ContractsTable.tsx:86 | with distinct ids, at most one row shows a disabled finalise button |
| TenantsTable.Pieces | src/feature/tenants/components/TenantsTable.tsx:26 | the trimmed name split at single spaces; `PiecesDoubleSpace` shows that two spaces leave an empty piece |
| TenantsTable.Initials | src/feature/tenants/components/TenantsTable.tsx:25-29 | `initials` as written; `InitialsOneWord`, `InitialsTwoWords` and `InitialsDoubleSpace` prove its cases |
| TenantsTable.InitialsOneWord | src/feature/tenants/components/TenantsTable.tsx:26-27 | a one-word name gives its first two characters upper-cased |
| TenantsTable.InitialsTwoWords | src/feature/tenants/components/TenantsTable.tsx:28 | two words split by one space give the upper-cased first letters of both |
| TenantsTable.InitialsDoubleSpace | src/feature/tenants/components/TenantsTable.tsx:28 | as written, two words split by two spaces give a first letter followed by "UNDEFINED" |
| TenantsTable.AnaPerezAsWritten | src/feature/tenants/components/TenantsTable.tsx:25-29 | as written, "Ana  Perez" gives "AUNDEFINED" |
| TenantsTable.InitialsCorrected | src/feature/tenants/components/TenantsTable.tsx:25-29 | corrected initials have at most two characters, and none for a blank name |
| TenantsTable.InitialsAgree | src/feature/tenants/components/TenantsTable.tsx:25-29 | the corrected initials equal the written ones whenever no split piece is empty |
| TenantsTable.InitialsCorrectedDoubleSpace | src/feature/tenants/components/TenantsTable.tsx:28 | corrected, two words split by two spaces give both first letters |
| TenantsTable.Words | src/feature/tenants/components/TenantsTable.tsx:28 | the pieces that are not empty, which the corrected initials read; `WordsDoubleSpace` proves two spaces give two words |
| TenantsTable.WordsDoubleSpace | src/feature/tenants/components/TenantsTable.tsx:28 | the words of "a  c" are a and c |
| TenantsTable.AnaPerezIntended | src/feature/tenants/components/TenantsTable.tsx:25-29 | corrected, "Ana  Perez" gives "AP" |
| TenantsTable.Avatar | src/feature/tenants/components/TenantsTable.tsx:104 | the avatar text: the initials as written; `InitialsDoubleSpace` and `AnaPerezAsWritten` prove what it shows for a double space |
| TenantsTable.CorrectedAvatar | src/feature/tenants/components/TenantsTable.tsx:104 | the avatar with the corrected initials; `InitialsAgree` proves it equals `Avatar` whenever no piece is empty |
| TenantsTable.TotalPages | src/feature/tenants/components/TenantsTable.tsx:70 | for n > 0, the ceiling of n / 10 |
| TenantsTable.CurrentPage | src/feature/tenants/components/TenantsTable.tsx:71 | the page clamped to the last page; `ClampIsIdentity` proves a page within range is left as it is, and `ShownTenantsSlice` that the result is a real page |
| TenantsTable.ShownTenants | src/feature/tenants/components/TenantsTable.tsx:73-76 | the rows of the current page; `ShownTenantsSlice` proves it is the matching slice of ten |
| TenantsTable.ShownTenantsSlice | src/feature/tenants/components/TenantsTable.tsx:71-76 | the current page is `min(page, totalPages)`, and the slice holds at most 10 tenants starting at `(currentPage-1)*10` |
| TenantsTable.Pager.constructor | src/feature/tenants/components/TenantsTable.tsx:35 | the page starts at 1 |
| TenantsTable.Pager.CountChanged | src/feature/tenants/components/TenantsTable.tsx:37-39 | the page resets to 1 exactly when the tenant count changes |
| TenantsTable.Pager.Previous | src/feature/tenants/components/TenantsTable.tsx:139-140 | steps back one page, never below 1 |
| TenantsTable.Pager.Next | src/feature/tenants/components/TenantsTable.tsx:146-147 | steps forward one page, never past the last |
| TenantsTable.ClampIsIdentity | src/feature/tenants/components/TenantsTable.tsx:71 | a page within range is shown as itself |
| TenantsMappers.MapTenant | src/feature/tenants/utils/tenants.mappers.ts:4-13 | the name is trimmed, a missing contract count becomes 0, and the other fields are copied |
| TenantsMappers.MappedNameIsTrimmed | src/feature/tenants/utils/tenants.mappers.ts:7 | a mapped name neither starts nor ends with whitespace, and trimming it again changes nothing |
| TenantsMappers.MapTenants | src/feature/tenants/utils/tenants.mappers.ts:15-17 | the length is kept, and element i is the mapping of element i |
| TenantsMappers.MapTenantsAppend | src/feature/tenants/utils/tenants.mappers.ts:15-17 | mapping distributes over concatenation |
| TenantsMappers.MapTenantSame | src/feature/tenants/utils/tenants.mappers.ts:4-13 | two records map alike exactly when they agree on every copied field, on the trimmed name and on the defaulted count |
| NavProjects.IsActive | src/components/nav-projects.tsx:58-65 | whether a menu item is highlighted; `DashboardExact`, `OtherItems`, `SiblingPathNotActive` and `AtMostOneActive` prove its rule |
| NavProjects.DashboardExact | src/components/nav-projects.tsx:59-61 | the dashboard is active exactly on `/app` |
| NavProjects.OtherItems | src/components/nav-projects.tsx:62-64 | any other item is active exactly on its url or below it |
| NavProjects.SiblingPathNotActive | src/components/nav-projects.tsx:63 | `/app/habitacionesX` does not activate `/app/habitaciones` |
| NavProjects.AtMostOneActive | src/components/nav-projects.tsx:22-64 | for any path, at most one item is active |
| NavProjects.MatchedPrefix | src/components/nav-projects.tsx:62-64 | an active item's url is a prefix of the path |
| NavProjects.SegmentClash | src/components/nav-projects.tsx:22-64 | no two section urls can both match one path |
| ContractsApi.StripBase64Prefix | src/feature/contracts/api/contracts.ts:14-20 | the result is always a suffix of the input |
| ContractsApi.StripDataUrl | src/feature/contracts/api/contracts.ts:15-17 | a `data:image` URL gives everything after its first comma |
| ContractsApi.StripKeepsOther | src/feature/contracts/api/contracts.ts:15-19 | an input not starting with `data:image`, or without a comma, is returned unchanged |
| ContractsApi.StripCutsAtFirstComma | src/feature/contracts/api/contracts.ts:15-17 | the cut is right after the first comma |
| ContractsApi.StripOnce | src/feature/contracts/api/contracts.ts:14-20 | stripping a payload without commas a second time changes nothing |
| AuthStore.Store.constructor | src/store/useAuthStore.ts:22-24 | no user, not authenticated, no token |
| AuthStore.Store.SetUser | src/store/useAuthStore.ts:27-31 | sets the user and authenticates, leaving the token alone |
| AuthStore.Store.SetUserId | src/store/useAuthStore.ts:34-45 | no user means no change; otherwise only the user's id changes and the store is authenticated |
| AuthStore.Store.SetAuthenticated | src/store/useAuthStore.ts:47-51 | changes only the flag |
| AuthStore.Store.SetToken | src/store/useAuthStore.ts:53-70 | stores the token; the access-token key is present exactly when the token is truthy |
| AuthStore.Store.Logout | src/store/useAuthStore.ts:73-85 | removes only the access-token key and resets user, flag and token |
| Text.StartsWith | src/feature/contracts/api/contracts.ts:16 | `startsWith`: the prefix test; `StripDataUrl` and `StripKeepsOther` use it |
| Text.Trim | src/feature/tenants/utils/tenants.mappers.ts:7 | `trim`; `TrimIsSlice`, `TrimCutsWhitespace`, `TrimEndsClean` and `TrimIdempotent` prove it drops exactly the JavaScript whitespace at both ends |
| Text.TrimIsSlice | src/feature/tenants/utils/tenants.mappers.ts:7 | `trim` returns a contiguous slice of its input |
| Text.TrimCutsWhitespace | src/feature/tenants/utils/tenants.mappers.ts:7 | `trim` removes only whitespace |
| Text.TrimEndsClean | src/feature/tenants/utils/tenants.mappers.ts:7 | a trimmed text neither starts nor ends with whitespace |
| Text.TrimIdempotent | src/feature/tenants/utils/tenants.mappers.ts:7 | trimming twice equals trimming once |
| Text.IntToString | src/feature/payments/lib/paymentsStorage.ts:184 | `String(n)` is a sign exactly for negative n, followed by decimal digits |
| Text.Pad2 | src/feature/payments/lib/paymentsStorage.ts:48-49 | `padStart(2, "0")` gives at least two digits, exactly two below 100 |
| Text.IndexOf | src/feature/contracts/api/contracts.ts:15 | `indexOf` gives the first occurrence, or -1 exactly when there is none |
| Text.Split | src/feature/payments/lib/paymentsStorage.ts:43 | `split` always yields at least one piece |
| Text.UpperChar | src/feature/tenants/components/TenantsTable.tsx:27-28 | one character upper-cased: a-z and U+00E0..U+00FE except U+00F7 move down by 32, everything else is kept |
| Text.ToUpper | src/feature/tenants/components/TenantsTable.tsx:27-28 | the model of `toUpperCase` keeps the length and maps each character by `UpperChar`; where it differs from JavaScript is under Left out |
| Text.IntToStringInjective | src/feature/payments/lib/paymentsStorage.ts:184 | different numbers print differently |
| Text.SplitJoin | src/feature/payments/lib/paymentsStorage.ts:53-57 | splitting joined pieces without separators gives the pieces back |
| Text.JoinSplit | src/feature/payments/lib/paymentsStorage.ts:53-57 | joining the split pieces gives the text back |
| Text.LexLe | src/feature/payments/pages/PaymentsPage.tsx:49 | code-point string order; `LexLeTotal`, `LexLeTransitive` and `LexLeAntisymmetric` prove it is a total order |
| Text.LexLeTotal | src/feature/payments/pages/PaymentsPage.tsx:49 | the string order is total |
| Text.LexLeTransitive | src/feature/payments/pages/PaymentsPage.tsx:49 | the string order is transitive |
| Text.LexLeAntisymmetric | src/feature/payments/pages/PaymentsPage.tsx:49 | strings that are ordered both ways are equal |
| JsNumber.ParseNumber | src/feature/contracts/components/NewContractDialog.tsx:130-131 | `Number(text)` on the modelled syntax; `ParseDigits`, `ParseIntToString` and `EmptyFieldIsMinimum` prove its cases |
| JsNumber.ParseDigits | src/feature/start/components/OnboardingForm.tsx:241 | `Number` of a decimal digit string is its value |
| JsNumber.ParseIntToString | src/feature/contracts/components/NewContractDialog.tsx:130-131 | `Number(String(n))` is n for every integer |
| JsNumber.Trunc | src/feature/payments/lib/paymentsStorage.ts:43-45 | truncation toward zero: within one of x, on the side of 0 |
| Seqs.Filter | src/feature/payments/pages/PaymentsPage.tsx:39 | a filter keeps exactly the elements that satisfy the predicate |
| Seqs.FilterConcat | src/feature/payments/pages/PaymentsPage.tsx:39 | filtering distributes over concatenation |
| Seqs.FilterPartition | src/feature/payments/pages/PaymentsPage.tsx:59-61 | complementary filters partition the multiset |
| Seqs.FilterStronger | src/feature/payments/pages/PaymentsPage.tsx:59-60 | a stronger predicate keeps a sub-multiset |
| Seqs.SortBy | src/feature/properties/components/GridRooms.tsx:52-69 | sorting by a total preorder gives a sorted permutation; `SortByStable` proves it stable |
| Seqs.SortBySorted | src/feature/properties/components/GridRooms.tsx:52-69 | the stable sort leaves a sorted list unchanged |
| Seqs.InsertByStable | src/feature/properties/components/GridRooms.tsx:52-69 | inserting into a sorted list keeps, among the elements tied with a key, their original order, the new one first |
| Seqs.SortByStable | src/feature/properties/components/GridRooms.tsx:52-69 | the sort is stable: the elements tied with any key appear in their original order |
| Seqs.NoDuplicatesMultiset | src/feature/payments/pages/PaymentsPage.tsx:42-50 | a list has no duplicates exactly when each element occurs at most once in its multiset |
| Seqs.NoDuplicatesCount | src/feature/payments/pages/PaymentsPage.tsx:42-50 | in a duplicate-free list no element occurs twice |
| Paging.CeilDiv | src/feature/tenants/components/TenantsTable.tsx:70 | the ceiling of n / size |
| Paging.PageSlice | src/feature/properties/components/GridRooms.tsx:99-100 | a page holds at most `size` items, is empty past the end, and is the slice starting at `(page-1)*size` |
| Paging.Pages | src/feature/tenants/components/TenantsTable.tsx:73-76 | pages 1..k end to end; `PagesPrefix` and `PagesCoverAll` prove they are the list's prefix and, with enough pages, the whole list |
| Paging.PagesPrefix | src/feature/tenants/components/TenantsTable.tsx:73-76 | the first k pages together are the first `k*size` items |
| Paging.PagesCoverAll | src/feature/properties/components/GridRooms.tsx:93-100 | the pages up to the last one together are the whole list |
| Paging.PageNotEmpty | src/feature/properties/components/GridRooms.tsx:93-100 | every page from 1 to the last holds at least one item |

## Left out

- Browser storage and JSON are not modelled: `localStorage`, `safeParse`, and the load and save helpers. The two ledger stores are in-memory maps from property id to list, where a missing key is an empty list. A parse failure, which the source also reads as an empty list, is not modelled, and neither are storage exceptions.
- `getPaymentsForProperty` is not a separate member. It is only `loadPayments`, which is `Ledger.PaymentsOf`. The re-export of `onContractFinalized` is `Ledger.OnContractFinalized` itself.
- The payment's period label comes from `Intl` date formatting, so it is a function parameter of the ledger's `DateRules`. "Today" in `markPaymentAsPaid` is a method parameter, because the clock is not modelled.
- `Calendar` models the `Date` constructor and `setMonth` in a time-zone-free calendar. It does not model time zones, years outside the proleptic Gregorian rules, or the `Date` range limit. A year 0..99 is remapped to 1900..1999 as the constructor does it, and the round-trip lemmas require a year of at least 100.
- `Number(text)` accepts optional whitespace, a sign, decimal digits and a fraction; the empty string is 0. Exponents, hex, `Infinity` and the other JavaScript number syntaxes read as NaN. Floating-point rounding is not modelled.
- Money amounts are exact reals, not floats or integer cents. The source adds rents as JavaScript numbers and never rounds them, and exact reals give that arithmetic without rounding error. `toFixed`, `Intl` currency display and every label text are left out.
- String order is code-point order (`LexLe`). `localeCompare` and the default sort use locale rules or UTF-16 units. `toUpperCase` is modelled for a-z and U+00E0..U+00FE except U+00F7, each moved down by 32; every other character is kept. It therefore differs from JavaScript on ß (U+00DF, which JavaScript maps to "SS" and so changes the length), ÿ (U+00FF, mapped to U+0178), µ (U+00B5, mapped to U+039C) and every letter outside Latin-1.
- GridRooms calls `useState` after its early return for an empty property, which breaks React's hook order. The model treats the page as ordinary state.
- Network calls, react-query, toasts, navigation, dialogs, charts and other display-only parts are not modelled. The payments page receives its invoice list as a parameter; its server-side state filter is not modelled.
- The `persist` middleware that saves the auth store under "habitora-auth" is not modelled; the store's `storage` field models only the access-token key.
- `rooms ?? []` in the rooms grid is not modelled: a floor always has a (possibly empty) room list.
- The tenant filter's sentinel "todos" is not distinguished from a tenant actually named "todos". The model, like the source, treats that name as "all tenants".
- Browser form validation (`min`, `max`, `required`) is not modelled; the handlers clamp values themselves.
- OnboardingForm.Form.HandleHabitacionChange: requires the index to be within the rooms array, because the form renders one input per floor and so cannot pass any other index.
- OnboardingForm.Form.SelectPisoResidencia: requires the value to be "none" or one of the rendered floor options, because the select offers only those.
- NewContractDialog.Dialog.SelectDuration: requires one of the four listed durations, because the select offers only those.
- TenantsTable.Pager.Next: requires at least one tenant, because the table's early return hides the buttons when the list is empty.
- TenantsTable.ShownTenants: requires at least one tenant and page at least 1, because with no tenants the table returns its empty message before slicing, and the pager keeps the page at 1 or more.

## Findings

| source | as written | input that shows it | evidently intended | confidence | as-written member | corrected member |
|---|---|---|---|---|---|---|
| src/feature/tenants/components/TenantsTable.tsx:25-29 | `initials` splits the trimmed name at single spaces and reads `p[1][0]`; two spaces in a row make `p[1]` empty, so the second letter is `undefined`, which is stringified and upper-cased | "Ana  Perez" gives "AUNDEFINED" | the first letters of the first two words, "AP" | not executed | TenantsTable.AnaPerezAsWritten | TenantsTable.InitialsCorrected |

`TenantsTable.InitialsDoubleSpace` states the as-written result for any two words split by two
spaces. `TenantsTable.InitialsCorrected` drops empty pieces before it reads the first letters:
`TenantsTable.AnaPerezIntended` and `TenantsTable.InitialsCorrectedDoubleSpace` state the
intended results, and `TenantsTable.InitialsAgree` shows it agrees with the source whenever no
piece is empty. `TenantsTable.Avatar` renders the as-written initials, as the table does;
`TenantsTable.CorrectedAvatar` is the avatar with the corrected initials.
