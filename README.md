# Supplier onboarding form — a Dafny model

This project models the client-side state logic of a supplier-onboarding web
part: a multi-tab form whose fields live in one flat supplier record, an
ordered list of attachment descriptors, three form sections whose dropdowns
cascade from static lookup tables, and a submission section that decides
between creating and updating the supplier item and uploads a staged file
afterwards.

Modules, one per source file (plus two small support modules):

- `JsValues` (`js_values.dfy`): the JavaScript semantics the form relies on —
  truthiness, `toString` of an integer, `Number(...)` of a decimal string.
- `SupplierSlice` (`supplier_slice.dfy`): the record, its initial value, the
  `setSupplierField` / `resetSupplierState` / fetch-merge reducers, and the
  normalised payload of `createSupplier` / `updateSupplier`. The store is a
  class `SupplierStore` whose field `state` the reducers update.
- `AttachmentSlice` (`attachment_slice.dfy`): the attachment list, as class
  `AttachmentStore`, with reset, replace-all, append and remove-by-name.
- `SupplierDetails`, `BankingDetails`, `PaymentDetails`: the three form
  sections, each a class holding its local React state (offered cities and
  branches, checkbox flags) and a reference to the record store.
- `Utils` (`utils.dfy`): `getQueryParams`, reading `recordId` from the query
  string.
- `ListGateway` (`list_gateway.dfy`): the requests sent to the remote list,
  recorded as values, and the outcomes that come back.
- `SaveAndSubmit` (`save_and_submit_form.dfy`): the submission handlers as
  pure steps over a `Session` (both stores, the staged file, the query
  string, the active tab, the requests sent and the toasts shown), and the
  class `SaveAndSubmitForm` whose methods are proved to perform those steps.

The record is a `map<Field, Value>`: a missing key is `undefined`, the fetch
merge `{ ...state, ...payload }` is map union. Values are strings, integers,
`null` or a file. Remote outcomes are inputs to the handlers; every request
the handlers send is appended to a log so that "exactly one create, no
update" and "upload after the record request" can be stated.

Behaviours of the code worth noting, all kept in the model:

- the fetch result is merged into the record, not substituted for it
  (`supplierSlice.ts:182-184`), so a property the fetched item lacks keeps
  its previous value and one it holds as null becomes null;
- the initial effective date is `""`, not null; in the record, null comes
  only from unchecking VAT or from a fetched item, and in the payload every
  falsy effective date is sent as null;
- deleting an attachment removes every entry of that name, not one;
- the identity section clears an invalid city in an effect that runs after
  the country changes, not in the country handler itself;
- `recordId` is tested for truthiness, so an empty identifier counts as
  none.

## Model

| member | source | states |
|---|---|---|
| `JsValues.NatToString` | src/webparts/supplierCreation/components/Forms/SaveAndSubmitForm.tsx:103-107 | the `ID` written into the address is a non-empty run of decimal digits with no leading zero |
| `JsValues.IntToString` | src/webparts/supplierCreation/components/Forms/SupplierDetailsForm.tsx:41-46 | `value.toString()` of a number is non-empty and starts with `-` exactly for negatives |
| `JsValues.NumberOf` | src/webparts/supplierCreation/components/Forms/SaveAndSubmitForm.tsx:82 | `Number(recordId)`: "" is 0, a digit string is a non-negative integer, NaN exactly for strings that are not digit runs with an optional leading `-` |
| `JsValues.NumberOfProp` | src/webparts/supplierCreation/components/Forms/SaveAndSubmitForm.tsx:66-67 | `Number(supplier.ID)`: a numeric `ID` is that number, a string `ID` is read as a decimal, null is 0, undefined and a file are NaN |
| `JsValues.DigitsValueOfNatToString` | src/webparts/supplierCreation/components/Forms/SaveAndSubmitForm.tsx:103-107 | the digits written for an `ID` have that `ID` as their value |
| `JsValues.NumberOfIntToString` | src/webparts/supplierCreation/components/Forms/SaveAndSubmitForm.tsx:103-107 | `Number(String(n))` is `n` for every integer: the address round-trips the item number |
| `Utils.RecordIdOf` | src/webparts/supplierCreation/components/utils/utils.ts:7-11 | `recordId` is the `vendorId` parameter of the query string when it is present and non-empty, and none otherwise |
| `Utils.ParamValueOfSingle` | src/webparts/supplierCreation/components/utils/utils.ts:8-9 | a query string holding just `key=v` yields `v` for `key` |
| `Utils.ParamValueSkips` | src/webparts/supplierCreation/components/utils/utils.ts:8-9 | a parameter of another name before `key` is skipped |
| `SupplierSlice.InitialStateDefaults` | src/webparts/supplierCreation/components/store/supplierSlice.ts:9-41 | the initial record has no `ID`, every other property defined, text "", numbers 0, `Attachments` null, effective date "" |
| `SupplierSlice.SetField` | src/webparts/supplierCreation/components/store/supplierSlice.ts:173-178 | the named property reads back as the value; every other property, defined or not, is unchanged |
| `SupplierSlice.SetFieldKeepsPopulated` | src/webparts/supplierCreation/components/interface/Supplier.ts:1-41 | a field write keeps every non-`ID` property defined |
| `SupplierSlice.SetFieldLastWriteWins` | src/webparts/supplierCreation/components/store/supplierSlice.ts:177 | of two writes to one property the last wins; rewriting the current value changes nothing |
| `SupplierSlice.MergeFetched` | src/webparts/supplierCreation/components/store/supplierSlice.ts:182-184 | each property comes from the fetched item when it has it, otherwise keeps its previous value |
| `SupplierSlice.MergeFetchedKeepsPopulated` | src/webparts/supplierCreation/components/store/supplierSlice.ts:182-184 | merging a fetched item never makes a property undefined |
| `SupplierSlice.Payload` | src/webparts/supplierCreation/components/store/supplierSlice.ts:71-104 | the payload has every property but `ID` and `Attachments`; truthy values pass unchanged, falsy text becomes "", falsy numbers 0, the effective date an ISO date or null |
| `SupplierSlice.PayloadHasNoNull` | src/webparts/supplierCreation/components/store/supplierSlice.ts:71-104 | no payload property except the effective date is ever null or undefined |
| `SupplierSlice.PayloadOfInitialState` | src/webparts/supplierCreation/components/store/supplierSlice.ts:89-91 | a blank form sends "" and 0 everywhere and a null effective date although the record holds "" |
| `SupplierSlice.PayloadAfterSetField` | src/webparts/supplierCreation/components/store/supplierSlice.ts:125-158 | a field write changes at most that property of the payload; writing `ID` or `Attachments` changes none |
| `SupplierSlice.SupplierStore.constructor` | src/webparts/supplierCreation/components/store/supplierSlice.ts:9-41 | the store starts at the initial record |
| `SupplierSlice.SupplierStore.SetSupplierField` | src/webparts/supplierCreation/components/store/supplierSlice.ts:173-178 | the new state is the old one with the one property set |
| `SupplierSlice.SupplierStore.ResetSupplierState` | src/webparts/supplierCreation/components/store/supplierSlice.ts:179 | the new state is the initial record whatever the old one was |
| `SupplierSlice.SupplierStore.FetchSupplierByIdFulfilled` | src/webparts/supplierCreation/components/store/supplierSlice.ts:182-184 | the new state is the old one overlaid with the fetched item |
| `AttachmentSlice.Added` | src/webparts/supplierCreation/components/store/attachmentSlice.ts:85-92 | a returned file adds exactly one entry at the end under its name, earlier entries untouched, no duplicate check; no file leaves the list as it was |
| `AttachmentSlice.Without` | src/webparts/supplierCreation/components/store/attachmentSlice.ts:93-95 | the result holds exactly the entries of other names and is never longer |
| `AttachmentSlice.WithoutCounts` | src/webparts/supplierCreation/components/store/attachmentSlice.ts:94 | each entry of another name is kept as many times as it occurred; no entry of the deleted name is left |
| `AttachmentSlice.WithoutAppend` | src/webparts/supplierCreation/components/store/attachmentSlice.ts:94 | removal distributes over concatenation, so the kept entries keep their order |
| `AttachmentSlice.WithoutAbsent` | src/webparts/supplierCreation/components/store/attachmentSlice.ts:94 | deleting a name no entry has changes nothing |
| `AttachmentSlice.WithoutIdempotent` | src/webparts/supplierCreation/components/store/attachmentSlice.ts:94 | deleting a name twice equals deleting it once |
| `AttachmentSlice.DeleteUndoesAdd` | src/webparts/supplierCreation/components/store/attachmentSlice.ts:85-95 | deleting a name removes the entry just added under it along with all earlier duplicates |
| `AttachmentSlice.AttachmentStore.constructor` | src/webparts/supplierCreation/components/store/attachmentSlice.ts:10-12 | the list starts empty |
| `AttachmentSlice.AttachmentStore.ResetAttachments` | src/webparts/supplierCreation/components/store/attachmentSlice.ts:77-79 | the list is empty from any state |
| `AttachmentSlice.AttachmentStore.FetchAttachmentsFulfilled` | src/webparts/supplierCreation/components/store/attachmentSlice.ts:82-84 | the list becomes the fetched list |
| `AttachmentSlice.AttachmentStore.AddAttachmentFulfilled` | src/webparts/supplierCreation/components/store/attachmentSlice.ts:85-92 | the list becomes `Added` of the old list |
| `AttachmentSlice.AttachmentStore.DeleteAttachmentFulfilled` | src/webparts/supplierCreation/components/store/attachmentSlice.ts:93-95 | the list becomes `Without` of the old list |
| `SupplierDetails.CitiesTable` | src/webparts/supplierCreation/components/Forms/SupplierDetailsForm.tsx:9-13 | exactly India, USA and France have cities, India's are Mumbai, Delhi, Bangalore, Chennai, any other key gives [] |
| `SupplierDetails.ClearInvalidCity` | src/webparts/supplierCreation/components/Forms/SupplierDetailsForm.tsx:22-32 | with a chosen country, a city not listed for it becomes "" and nothing else changes; a listed city or an empty country is left alone; the result always has city "" or a listed one |
| `SupplierDetails.ClearInvalidCityIdempotent` | src/webparts/supplierCreation/components/Forms/SupplierDetailsForm.tsx:22-32 | the effect is idempotent and leaves a consistent record unchanged |
| `SupplierDetails.SelectCountryThenEffect` | src/webparts/supplierCreation/components/Forms/SupplierDetailsForm.tsx:22-39 | choosing a country then running the effect offers that country's cities and leaves a city of that country or "" |
| `SupplierDetails.ToText` | src/webparts/supplierCreation/components/Forms/SupplierDetailsForm.tsx:41-46 | a string is stored as is; a number is stored as a string that reads back as the same number |
| `SupplierDetails.SupplierDetailsForm.constructor` | src/webparts/supplierCreation/components/Forms/SupplierDetailsForm.tsx:19 | no city is offered at first |
| `SupplierDetails.SupplierDetailsForm.CountryEffect` | src/webparts/supplierCreation/components/Forms/SupplierDetailsForm.tsx:22-32 | the record becomes `ClearInvalidCity` of the old one; the offered cities follow a non-empty country and are kept otherwise |
| `SupplierDetails.SupplierDetailsForm.HandleCountryChange` | src/webparts/supplierCreation/components/Forms/SupplierDetailsForm.tsx:35-39 | only `Country` is written; the offered cities are the lookup of the new country |
| `SupplierDetails.SupplierDetailsForm.HandleInputChange` | src/webparts/supplierCreation/components/Forms/SupplierDetailsForm.tsx:41-46 | exactly one property is written, with the value's string form |
| `BankingDetails.BankingTables` | src/webparts/supplierCreation/components/Forms/BankingDetailsForm.tsx:9-20 | ICICI, SBI and HDFC have three branches each, any other bank none; the banking India list differs from the identity one |
| `BankingDetails.BankChangeKeepsStaleBranch` | src/webparts/supplierCreation/components/Forms/BankingDetailsForm.tsx:56-60 | any chosen branch survives a change to any bank, including one that does not offer it |
| `BankingDetails.BankingDetailsForm.constructor` | src/webparts/supplierCreation/components/Forms/BankingDetailsForm.tsx:29-30 | no city and no branch are offered at first |
| `BankingDetails.BankingDetailsForm.CountryEffect` | src/webparts/supplierCreation/components/Forms/BankingDetailsForm.tsx:33-37 | a non-empty `bankcountry` recomputes the cities, so the city select is then disabled exactly when the country is not India, USA or France; an empty one keeps the previous options |
| `BankingDetails.BankingDetailsForm.BankEffect` | src/webparts/supplierCreation/components/Forms/BankingDetailsForm.tsx:40-44 | a non-empty `bankname` recomputes the branches, so the branch select is then disabled exactly when the bank is not ICICI, SBI or HDFC; an empty one keeps the previous options |
| `BankingDetails.BankingDetailsForm.HandleInputChange` | src/webparts/supplierCreation/components/Forms/BankingDetailsForm.tsx:46-48 | exactly one property is written, with the value as given |
| `BankingDetails.BankingDetailsForm.HandleCountryChange` | src/webparts/supplierCreation/components/Forms/BankingDetailsForm.tsx:50-54 | only `bankcountry` is written, `bankcity` is not cleared, the cities are recomputed and the city select is disabled exactly when the country is not India, USA or France |
| `BankingDetails.BankingDetailsForm.HandleBankChange` | src/webparts/supplierCreation/components/Forms/BankingDetailsForm.tsx:56-60 | only `bankname` is written, `branchname` is not cleared, the branches are recomputed and the branch select is disabled exactly when the bank is not ICICI, SBI or HDFC |
| `BankingDetails.BankingDetailsForm.BranchSelectDisabled` | src/webparts/supplierCreation/components/Forms/BankingDetailsForm.tsx:96 | the branch select is disabled exactly when no branch is offered; which banks enable it is stated on `HandleBankChange` and `BankEffect` |
| `BankingDetails.BankingDetailsForm.CitySelectDisabled` | src/webparts/supplierCreation/components/Forms/BankingDetailsForm.tsx:133 | the city select is disabled exactly when no city is offered; which countries enable it is stated on `HandleCountryChange` and `CountryEffect` |
| `PaymentDetails.ClearVat` | src/webparts/supplierCreation/components/Forms/PaymentDetailsForm.tsx:86-95 | unchecking VAT sets 0, "", null, 0 on the four VAT properties, touches no other, and leaves no VAT data |
| `PaymentDetails.ClearVatIdempotent` | src/webparts/supplierCreation/components/Forms/PaymentDetailsForm.tsx:86-95 | clearing twice equals clearing once, and the payload then sends 0, "", null, 0 |
| `PaymentDetails.AutoShowVat` | src/webparts/supplierCreation/components/Forms/PaymentDetailsForm.tsx:42-50 | the effect turns `showVatDetails` on when a VAT property is truthy and never turns it off |
| `PaymentDetails.AutoPredefined` | src/webparts/supplierCreation/components/Forms/PaymentDetailsForm.tsx:52-58 | the effect turns `isPredefinedOption` on for "Purchase Order" or "Receipt" and otherwise leaves it |
| `PaymentDetails.VatToggleOffIsStable` | src/webparts/supplierCreation/components/Forms/PaymentDetailsForm.tsx:42-95 | after unchecking VAT the effect does not check it again |
| `PaymentDetails.CheckPredefinedThenEffect` | src/webparts/supplierCreation/components/Forms/PaymentDetailsForm.tsx:52-72 | checking the box empties the match option and the effect keeps the box checked |
| `PaymentDetails.PaymentDetailsForm.constructor` | src/webparts/supplierCreation/components/Forms/PaymentDetailsForm.tsx:36-37 | both checkboxes start unchecked |
| `PaymentDetails.PaymentDetailsForm.AutoEnableEffect` | src/webparts/supplierCreation/components/Forms/PaymentDetailsForm.tsx:42-65 | the flags become `AutoShowVat` and `AutoPredefined` of the record and the old flags |
| `PaymentDetails.PaymentDetailsForm.HandleCheckboxChange` | src/webparts/supplierCreation/components/Forms/PaymentDetailsForm.tsx:67-72 | the flag follows the box; checking writes "" to the match option, unchecking leaves the record |
| `PaymentDetails.PaymentDetailsForm.HandleInputChange` | src/webparts/supplierCreation/components/Forms/PaymentDetailsForm.tsx:74-79 | exactly the one named property is written |
| `PaymentDetails.PaymentDetailsForm.HandleVatToggle` | src/webparts/supplierCreation/components/Forms/PaymentDetailsForm.tsx:86-95 | the flag follows the box; unchecking applies `ClearVat`, checking leaves the record |
| `SaveAndSubmit.AddAttachmentBehaviour` | src/webparts/supplierCreation/components/Forms/SaveAndSubmitForm.tsx:53-63 | nothing without a staged file; otherwise one upload for the given item, file unstaged and success shown whatever the outcome, and the list becomes `Added` of itself with the staged file exactly on success, unchanged otherwise |
| `SaveAndSubmit.DeleteAttachmentBehaviour` | src/webparts/supplierCreation/components/Forms/SaveAndSubmitForm.tsx:65-70 | nothing without `supplier.ID`; otherwise one delete for `Number(ID)` and the deletion notice; the list becomes `Without` of itself when the delete is fulfilled and is unchanged when it is rejected; record, staged file, address and tab are untouched |
| `SaveAndSubmit.UpdateBehaviour` | src/webparts/supplierCreation/components/Forms/SaveAndSubmitForm.tsx:78-88 | nothing without a non-empty `recordId`; otherwise one update for `Number(recordId)` and no create, then exactly the upload of a staged file for that item, the file unstaged and the list grown exactly on a fulfilled upload; success shown whether or not the update was fulfilled |
| `SaveAndSubmit.SaveBehaviour` | src/webparts/supplierCreation/components/Forms/SaveAndSubmitForm.tsx:91-114 | one create and no update; a fulfilled create then uploads a staged file for the new `ID` (exactly that request), unstages it, grows the list exactly on a fulfilled upload and writes `vendorId=<ID>`; a rejection leaves address, staged file and list unchanged |
| `SaveAndSubmit.SaveSwitchesToUpdate` | src/webparts/supplierCreation/components/Forms/SaveAndSubmitForm.tsx:91-114 | after a fulfilled create, the next render reads the new `ID` back as `recordId`, and the next update goes to that item |
| `SaveAndSubmit.SaveAndCreateNewBehaviour` | src/webparts/supplierCreation/components/Forms/SaveAndSubmitForm.tsx:117-134 | update path exactly when the query's `recordId` is non-empty, sending exactly the update for `Number(recordId)` then the staged file's upload for that item; otherwise exactly the create then, after a fulfilled create, the upload for the new `ID`; afterwards, whatever the outcomes, initial record, empty list, no query, tab 0; the handler's own staged file survives only a rejected create |
| `SaveAndSubmit.SaveAndSubmitForm.constructor` | src/webparts/supplierCreation/components/Forms/SaveAndSubmitForm.tsx:21-33 | no file is staged, nothing has been sent, and the query string is the page's |
| `SaveAndSubmit.SaveAndSubmitForm.OnDrop` | src/webparts/supplierCreation/components/Forms/SaveAndSubmitForm.tsx:43-45 | the first accepted file is staged |
| `SaveAndSubmit.SaveAndSubmitForm.HandleRemarkChange` | src/webparts/supplierCreation/components/Forms/SaveAndSubmitForm.tsx:73-75 | only `remark` is written |
| `SaveAndSubmit.SaveAndSubmitForm.FetchAttachmentsEffect` | src/webparts/supplierCreation/components/Forms/SaveAndSubmitForm.tsx:36-40 | with a `supplier.ID` the files are listed and a fulfilled listing replaces the list |
| `SaveAndSubmit.SaveAndSubmitForm.HandleAddAttachment` | src/webparts/supplierCreation/components/Forms/SaveAndSubmitForm.tsx:53-63 | performs `AddAttachmentStep` on both stores and the section's state |
| `SaveAndSubmit.SaveAndSubmitForm.HandleDeleteAttachment` | src/webparts/supplierCreation/components/Forms/SaveAndSubmitForm.tsx:65-70 | performs `DeleteAttachmentStep` |
| `SaveAndSubmit.SaveAndSubmitForm.HandleUpdate` | src/webparts/supplierCreation/components/Forms/SaveAndSubmitForm.tsx:78-88 | performs `UpdateStep` |
| `SaveAndSubmit.SaveAndSubmitForm.HandleSave` | src/webparts/supplierCreation/components/Forms/SaveAndSubmitForm.tsx:91-114 | performs `SaveStep` |
| `SaveAndSubmit.SaveAndSubmitForm.HandleSaveAndCreateNew` | src/webparts/supplierCreation/components/Forms/SaveAndSubmitForm.tsx:117-134 | performs `SaveAndCreateNewStep` |

## Left out

- The remote list (`sp.web.lists…` in every thunk, `sp.setup`): requests are recorded as `Call` values and their outcomes are inputs. Invalid dates, which make `toISOString` throw inside a thunk, show up only as a rejected outcome.
- The `fetchSupplierById` thunk and the effect in `SupplierCreation.tsx` that dispatches it: only the fulfilled reducer is modelled. `createSupplier` and `updateSupplier` have no reducers, so their results never reach the record store, as in the source.
- Date handling (`formatDateForInput`, `formatDateToISO`, `handleDateChange`): `new Date(v).toISOString()` is kept as the symbolic payload value `Iso(v)`.
- `Number(e.target.value)` in the inputs: numbers arrive already coerced. Numbers are integers throughout; floating point and NaN inside the record are not modelled.
- `JsValues.NumberOf`: only "", digit runs and `-` followed by digits are numbers; JavaScript also accepts surrounding whitespace, `+`, fractions, exponents and hexadecimal, which the model reads as NaN.
- `getQueryParams`: `Utils.ParamValue` splits on `&` and `=` only; the percent-decoding and `+`-as-space of `URLSearchParams` are not modelled. `window.history.pushState` is modelled by its effect on the query string; the path is not modelled.
- Unmounting of the submission section: the parent unmounts it whenever another tab is shown, so the `setActiveTab(0)` at the end of "Create New" discards a staged file. The model keeps the section's own state and does not capture that loss.
- The option lists that only feed selects (currencies, payment terms, account types): they are rendering data and constrain no stored value.
- Lookup keys that name `Object.prototype` members (such as `constructor`) yield inherited values in JavaScript; the model gives them no cities or branches.
- Toast texts: each toast is a `Notice` kind. The `catch` branches of the submission handlers are unreachable, because dispatching a request resolves with a rejected action rather than throwing, so their error toasts are not modelled.
- React scheduling: each `useEffect` is a method that the caller runs when its dependencies change; rendering, MUI, react-dropzone (beyond staging the first accepted file), tab animation, the web-part host, store wiring and `SupplierContext.tsx` (entirely commented out) are not modelled.
- Concurrency: double submits and the interleaving of the un-awaited requests (the delete in `handleDeleteAttachment`, the listing dispatched by the attachments effect) with later events are not modelled; every handler runs to completion in order.
- Field types: `setSupplierField` stores any value in any property, as JavaScript does at run time; the declared TypeScript types are not enforced.
