# EntregaCerta delivery core, modelled in Dafny

EntregaCerta is a delivery-tracking app. A manager imports NF-e invoices, either
from an XML file or by looking up a 44-digit access key. The manager then
assigns each invoice to a driver and a vehicle. Drivers log in, start their
route and close each stop with a delivery proof (signature or photo), or record
a return with a reason.

This project models that core. Each source file of the core becomes one module:

- `Db` — `services/db.ts`. The hosted tables become a `Store` class. It has one
  `seq` field per table: invoices, proofs, drivers, vehicles and notifications.
  The class models:
  - the delivery-status machine: `assignLogistics`, `startRoute`, `saveProof`;
  - the cascading deletes;
  - the per-recipient notification mailbox;
  - driver and manager credentials.
- `SefazApi` — `services/sefazApi.ts`. The public lookup by access key. It cleans
  the key, checks its length, and falls back to fields of the key. The layout of
  the key follows the NF-e access-key ("chave de acesso") layout of the NF-e
  Manual de Orientação do Contribuinte: cUF 2, AAMM 4, CNPJ 14, mod 2, série 3,
  nNF 9, tpEmis 1, cNF 8, cDV 1.
- `NfeImport` and `AdminView` — `components/AdminView.tsx`.
  - `NfeImport` holds the field extraction of the XML upload handler.
  - `AdminView` holds the manager screen: the `AdminConsole` class, the dashboard
    statistics with the top-5 driver ranking, the search filter, the selection
    set, and bulk and single logistics assignment.
- `DriverView` — `components/DriverView.tsx`. The driver screen, which covers:
  - the pending/history partition;
  - start-route availability;
  - full-route navigation;
  - the frozen-location latch;
  - the validation and construction of a delivery proof, in the
    `DeliveryAction` class.
- `App` — `App.tsx`. The screen and login state machine, in the `Shell` class.
- `SignatureCanvas` — `components/ui/SignatureCanvas.tsx`. The lock, double-tap
  and emptiness state of the signature pad, in the `Pad` class.
- `Types` — `types.ts`. The domain datatypes.

Two support modules complete the project:

- `Base` holds `Option`/`Result`, plus filter, count and update-where over sequences.
- `JsText` states the JavaScript string behaviour the code relies on:
  - truthiness and `||` on strings;
  - `replace(/\D/g, '')`;
  - `trim`, `toUpperCase` and `toLowerCase`;
  - `includes`, `join` and `split`.

Remote calls are not executed; they become inputs. Each remote step has a
`...Fails` flag, and the model states what happens on each outcome. A lookup
reply is a `Reply` value. Generated ids, `Date.now()` and ISO time stamps are
parameters. Money is in integer cents.

Where the design documents and the code disagree, the model follows the code:

- The design says no path takes an invoice from PENDING to DELIVERED directly,
  and none out of DELIVERED. In the code:
  - `saveProof` never reads the current status;
  - `assignLogistics` with a driver resets any invoice to PENDING.

  `Db.SaveProofSkipsRouteStart`, `Db.AssignReopensDelivered` and
  `Db.AssignBreaksProofPairing` state these facts.
- The design says FAILED invoices stay editable. The code agrees, and
  `AdminView.VehicleChangeReopens` states it.

## Model

| member | source | states |
|---|---|---|
| Db.Single | services/db.ts:56 | `.single()` yields a row exactly when one row matched, and then that row |
| Db.CredentialsOk | services/db.ts:55-60 | an unknown driver never passes; a pass means exactly one driver row has the id |
| Db.AdminPassword | services/db.ts:167-169 | the expected manager password is never empty and is "admin123" when no setting is configured |
| Db.AnnouncedName | services/db.ts:141-142 | the announced driver name is never empty (falls back to "Motorista") |
| Db.StatusAfterProof | services/db.ts:157 | a saved proof always gives a terminal status, FAILED exactly when it carries a failure reason |
| Db.Store.constructor | services/db.ts:7-11 | the store starts with empty tables and the configured manager password |
| Db.Store.AddNotification | services/db.ts:13-23 | appends one unread notification with the given fields, type INFO by default; a failed insert changes nothing |
| Db.Store.ConsumeNotifications | services/db.ts:25-38 | returns exactly the recipient's unread notifications, in table order, and marks exactly those read; a failed select returns nothing and changes nothing |
| Db.Store.VerifyDriverCredentials | services/db.ts:55-60 | true exactly when the query answered, one driver matched, and its password is absent/empty or equals the input |
| Db.Store.AddDriver | services/db.ts:50-53 | appends the driver unless the insert fails |
| Db.Store.DeleteDriver | services/db.ts:62-67 | removes the driver; only if that succeeded, clears `driver_id` on every invoice that named it; nothing else changes |
| Db.Store.AddVehicle | services/db.ts:80-82 | appends the vehicle unless the insert fails |
| Db.Store.DeleteVehicle | services/db.ts:84-89 | removes the vehicle; only if that succeeded, clears `vehicle_id` on every invoice that named it |
| Db.Store.GetInvoicesByDriver | services/db.ts:96-99 | exactly the driver's invoices in table order, or nothing when the query fails |
| Db.Store.AddInvoice | services/db.ts:101-104 | appends the invoice unless the insert fails |
| Db.Store.DeleteInvoice | services/db.ts:106-109 | removes the invoice's proofs and then the invoice, each delete independently of the other |
| Db.Store.AssignLogistics | services/db.ts:111-121 | writes exactly the given driver and vehicle to the target row and PENDING when a driver is given; appends exactly the notification `NewCargoNote` gives, nothing else |
| Db.NewCargoNote | services/db.ts:112-120 | a "Nova Carga" note, unread and addressed to the new driver with the previous row's number, exists exactly when a driver is given, the read-back found the row, its driver differs, and the insert succeeded |
| Db.Store.StartRoute | services/db.ts:123-152 | with no PENDING invoice nothing changes; otherwise the driver's PENDING rows become IN_PROGRESS and one ADMIN notification carries the count |
| Db.Store.SaveProof | services/db.ts:154-160 | inserts the proof; only if that succeeded, the invoice becomes FAILED or DELIVERED by the failure reason |
| Db.Store.GetProofByInvoiceId | services/db.ts:162-165 | a proof is returned only when exactly one proof row names the invoice, and it names the invoice |
| Db.Store.VerifyAdminPassword | services/db.ts:167-169 | true exactly when the input equals the configured password, or "admin123" without one |
| Db.AssignRowsEffect | services/db.ts:111-116 | the target row gets exactly the given ids, PENDING exactly when a driver is given, and every other row is unchanged |
| Db.AssignReopensDelivered | services/db.ts:113-114 | assigning a driver resets a DELIVERED invoice to PENDING |
| Db.AssignBreaksProofPairing | services/db.ts:111-116 | after that reset, an invoice with a proof is no longer terminal |
| Db.StartRouteEffect | services/db.ts:133-137 | exactly the driver's PENDING rows become IN_PROGRESS; every other row is unchanged |
| Db.StartRouteCounts | services/db.ts:125-137 | afterwards the driver has no PENDING invoice, and IN_PROGRESS grew by the announced count |
| Db.StartRouteWithoutPending | services/db.ts:131 | without PENDING invoices the route update changes no row |
| Db.RouteStartMessageCarriesCount | services/db.ts:144-149 | the manager's message contains the count, readable back as a number |
| Db.StartRouteKeepsProofPairing | services/db.ts:133-137 | starting a route keeps "terminal exactly when a proof exists" |
| Db.SaveProofKeepsProofPairing | services/db.ts:154-160 | a first proof keeps "terminal exactly when a proof exists" |
| Db.SaveProofSkipsRouteStart | services/db.ts:154-160 | a PENDING invoice goes straight to DELIVERED, because the current status is never checked |
| Db.DeleteInvoiceKeepsProofPairing | services/db.ts:106-109 | deleting an invoice with its proofs leaves no proof for it and keeps the pairing |
| Db.DeleteDriverKeepsReferences | services/db.ts:62-67 | a driver delete with its cascade keeps every invoice's driver and vehicle resolvable |
| Db.DeleteDriverCascadeFailureDangles | services/db.ts:64-66 | if the cascade update fails after the delete, an invoice names a missing driver |
| Db.DeleteVehicleKeepsReferences | services/db.ts:84-89 | a vehicle delete with its cascade keeps every reference resolvable |
| Db.ConsumeTwiceYieldsNothing | services/db.ts:25-38 | a second consume straight after the first finds no unread notification |
| Db.ConsumeLeavesOthers | services/db.ts:25-38 | consuming one mailbox leaves every other recipient's unread notifications as they were |
| Db.ConsumeChangesOnlyReadFlags | services/db.ts:34-35 | consuming changes only the read flag, and only on the recipient's unread entries |
| SefazApi.FetchNFeData | services/sefazApi.ts:10-63 | a cleaned key that is not 44 digits is refused before any lookup; a failed lookup gives the fixed message and no invoice; a found invoice has the cleaned key, is PENDING and unassigned, and is named |
| SefazApi.Compose | services/sefazApi.ts:34-35 | composing the nine key fields gives a 44-character key |
| SefazApi.Fields | services/sefazApi.ts:34-35 | cutting a 44-character key gives well-formed fields |
| SefazApi.FieldsOfCompose | services/sefazApi.ts:34-35 | cutting a composed key gives back its fields |
| SefazApi.ComposeOfFields | services/sefazApi.ts:34-35 | composing the cut fields gives back the key |
| SefazApi.MissingNumberComesFromKey | services/sefazApi.ts:34-35 | a missing number or series is the key's nNF field [25,34) or série field [22,25); a present one is used as given |
| SefazApi.LookupKeyIsCanonical | services/sefazApi.ts:13-17 | the stored key is its own cleaned form, so looking it up again gives the same result |
| SefazApi.LookupRecipientFields | services/sefazApi.ts:38-45 | with a recipient: the name or the placeholder; the document is the CPF, else the CNPJ, else empty; the address is "street, number - district" with the zip, or the placeholder and an empty zip without an address |
| SefazApi.LookupDefaults | services/sefazApi.ts:38-45 | without a recipient, the customer is "Consumidor Final / Não Identificado", the address is the placeholder, and the document and zip are empty |
| NfeImport.GetValue | components/AdminView.tsx:224-225 | a tag is read in its block, or in the whole document when the block is absent |
| NfeImport.Extracted | components/AdminView.tsx:224-287 | rejected exactly when dest/enderDest is missing, or when nNF or xNome is empty; otherwise every field, default and the access key as the handler builds them, with the id from the first clock read and a generated key from the second |
| NfeImport.ParseNFeXml | components/AdminView.tsx:224-287 | the handler's step-by-step extraction gives exactly `Extracted` |
| NfeImport.NoteSuffixShape | components/AdminView.tsx:260-262 | the note is appended exactly when infCpl has a non-space character, and it is then the marker plus the upper-cased text |
| NfeImport.BaseAddressComplement | components/AdminView.tsx:256-259 | ` (xCpl)` follows the number exactly when xCpl is non-empty |
| NfeImport.AccessKeyRules | components/AdminView.tsx:264-269 | the key is chNFe, else the Id without "NFe", else a generated key, in that order |
| NfeImport.GeneratedKeyIsNotDigits | components/AdminView.tsx:275 | a generated key starts with "GEN", so it is never a 44-digit looked-up key |
| NfeImport.GeneratedKeyInjective | components/AdminView.tsx:275 | different times give different generated keys |
| AdminView.FindById | components/AdminView.tsx:310 | `find` returns the first row with the id, or nothing exactly when no row has it |
| AdminView.ImportKeepsKeysUnique | components/AdminView.tsx:289-296 | adding an invoice whose key is not taken keeps access keys unique |
| AdminView.TotalConcat | components/AdminView.tsx:151-152 | the value total distributes over concatenation |
| AdminView.StatusTotalAdds | components/AdminView.tsx:148-152 | the per-status totals add over concatenation and are 0 for no invoices |
| AdminView.StatusTotalOne | components/AdminView.tsx:148-152 | one invoice adds its value to its own status total only |
| AdminView.Entries | components/AdminView.tsx:154-159 | one ranking entry per driver, in driver order |
| AdminView.InsertByCount | components/AdminView.tsx:161 | inserting into a list sorted by count keeps it sorted and adds exactly the entry |
| AdminView.SortByCount | components/AdminView.tsx:161 | the sort by descending count is sorted and a permutation |
| AdminView.Take | components/AdminView.tsx:162 | `slice(0, n)` is a prefix of at most n entries |
| AdminView.EntryCountIsDeliveredCount | components/AdminView.tsx:155-157 | an entry's count is the driver's number of DELIVERED invoices |
| AdminView.TakeKeepsLargest | components/AdminView.tsx:161-162 | an entry cut off by the slice has no larger count than the last entry kept |
| AdminView.ActiveEntryOfDriver | components/AdminView.tsx:154-160 | an entry that survives the filter belongs to a driver and has a positive count |
| AdminView.RankingProperties | components/AdminView.tsx:154-162 | the ranking has at most 5 entries, each with a positive count equal to its driver's DELIVERED count, in non-increasing order |
| AdminView.RankingIsTop | components/AdminView.tsx:154-162 | a driver with deliveries who is missing from the ranking is outdone by all 5 entries |
| AdminView.FilterWithoutTermKeepsAll | components/AdminView.tsx:333 | an empty search keeps every invoice |
| AdminView.SearchFindsStatus | components/AdminView.tsx:336-348 | searching a status word finds every invoice in that status |
| AdminView.SearchIgnoresTermCase | components/AdminView.tsx:334 | the search term is compared in lower case |
| AdminView.Toggled | components/AdminView.tsx:361-369 | toggling flips exactly the given id's membership |
| AdminView.ToggledTwice | components/AdminView.tsx:361-369 | toggling an id twice restores the selection |
| AdminView.IdsOf | components/AdminView.tsx:357 | the ids of the shown invoices, exactly |
| AdminView.BulkRow | components/AdminView.tsx:379-386 | bulk assignment keeps each row's id |
| AdminView.BulkVehicleOnlyReopens | components/AdminView.tsx:382-384 | a vehicle-only bulk change keeps the driver but still reopens a DELIVERED invoice |
| AdminView.NonEmpty | components/AdminView.tsx:327 | `value \|\| null` keeps exactly the non-empty ids |
| AdminView.VehicleChangeReopens | components/AdminView.tsx:324-327 | changing the vehicle of an invoice with a driver resets it to PENDING; a FAILED invoice stays editable |
| AdminView.ClearingDriverKeepsStatus | components/AdminView.tsx:324-327 | clearing the driver writes no status |
| AdminView.AdminConsole.constructor | components/AdminView.tsx:15-26 | the console starts with empty lists, no selection, no search and the scanner closed |
| AdminView.AdminConsole.Refresh | components/AdminView.tsx:130-144 | the lists are reloaded from the store, or are empty when a read fails |
| AdminView.AdminConsole.ToggleSelectOne | components/AdminView.tsx:361-369 | the selection is toggled at the id |
| AdminView.AdminConsole.ToggleSelectAll | components/AdminView.tsx:353-359 | a non-empty selection is emptied; an empty one becomes exactly the filtered invoices' ids |
| AdminView.AdminConsole.ApplyBulkAssignment | components/AdminView.tsx:371-394 | nothing happens without a selection or a target; otherwise the rows written are exactly the selected, loaded ids whose update succeeded, each getting the bulk driver or its own and the bulk vehicle or its own; no other row changes; the notifications are those of the selected ids in some order of the selection; the lists are reloaded and the selection and targets reset |
| AdminView.AdminConsole.AssignEach | components/AdminView.tsx:379-388 | after the loop over the selection, the store holds the bulk rows of exactly the written ids and the notes of the ids in the order they were taken |
| AdminView.AdminConsole.AssignNext | components/AdminView.tsx:380-386 | one more selected id: an id not in the loaded list is skipped; otherwise `assignLogistics` runs and the bulk progress grows by that id |
| AdminView.BulkProgressAssigned | components/AdminView.tsx:380-386 | an `assignLogistics` call for a new id turns the bulk progress for the ids so far into that for one more id |
| AdminView.BulkRowsKeepOthers | components/AdminView.tsx:380-386 | updates for other ids do not change what `assignLogistics` reads back for this one |
| AdminView.SameRowsForId | services/db.ts:112 | rows that agree wherever they carry the id read back the same rows for it |
| AdminView.AdminConsole.HandleLogisticsUpdate | components/AdminView.tsx:309-329 | an unknown id changes nothing; otherwise the store assigns the changed field and keeps the other, appends exactly the "Nova Carga" note `NewCargoNote` gives, and the lists are reloaded |
| AdminView.AdminConsole.AddUnlessDuplicate | components/AdminView.tsx:194-202 | an invoice is added exactly when its access key is not already listed, so keys stay unique; after an add the lists are reloaded |
| AdminView.AdminConsole.ProcessAccessKey | components/AdminView.tsx:182-208 | a refused lookup changes nothing; a found invoice is added unless its key is already listed; the lists are reloaded only after an add; unique keys stay unique |
| AdminView.AdminConsole.OnScanSuccess | components/AdminView.tsx:171-178 | a scan is processed, and the scanner closed, exactly when its digits number 44; the key looked up is those digits, with the same outcome, store and list changes as a typed key; any other read changes nothing |
| AdminView.AdminConsole.HandleFileUpload | components/AdminView.tsx:210-307 | rejected exactly when `Extracted` fails, with its error; a duplicate exactly when the extracted key is already listed; both change nothing; otherwise the extracted invoice is appended unless the insert fails, the lists are reloaded, and keys stay unique |
| DriverView.PartitionIsExact | components/DriverView.tsx:133-134 | every invoice is in exactly one list: history when DELIVERED or FAILED, pending otherwise |
| DriverView.StartRouteOfferedIffWork | components/DriverView.tsx:182 | "Iniciar Rota" is offered exactly when the driver has a PENDING invoice |
| DriverView.Stops | components/DriverView.tsx:111 | one "address zip" stop per pending invoice, in order |
| DriverView.FullRoute | components/DriverView.tsx:109-113 | no route for an empty list; otherwise the destination is the last stop |
| DriverView.FullRouteWaypointsReadBack | components/DriverView.tsx:112-113 | when no address contains '\|', splitting the waypoints gives back every stop but the last, in order |
| DriverView.NoteSplitsWaypoint | components/DriverView.tsx:113 | an imported address with a note splits into three waypoints, one of them empty |
| DriverView.WaypointsOfTwoStops | components/DriverView.tsx:112-113 | with two stops, the waypoints are the first stop |
| DriverView.ReplaceChar | components/DriverView.tsx:113 | replaces exactly the given character, keeping the length |
| DriverView.SafeStopAddress | components/DriverView.tsx:111 | a corrected stop never contains '\|' |
| DriverView.SafeStops | components/DriverView.tsx:111 | one corrected stop per invoice, in order |
| DriverView.SafeFullRoute | components/DriverView.tsx:109-113 | the corrected route: none for an empty list, otherwise the last corrected stop as destination |
| DriverView.SafeFullRouteReadsBack | components/DriverView.tsx:112-113 | splitting the corrected waypoints always gives back every stop but the last |
| DriverView.SafeStopKeepsPlainAddress | components/DriverView.tsx:111 | the correction leaves an address without '\|' unchanged |
| DriverView.DriverConsole.constructor | components/DriverView.tsx:86-103 | the screen starts for the given driver with no invoices |
| DriverView.DriverConsole.Refresh | components/DriverView.tsx:86-103 | the list is the driver's invoices, and "Iniciar Rota" is offered exactly when the store holds a PENDING one for the driver |
| DriverView.DriverConsole.PressStartRoute | components/DriverView.tsx:182-197 | without the button or the confirmation nothing changes; otherwise the store's route start runs: a failed count or update leaves the rows; the manager gets exactly one "Início de Rota" note with the count when everything succeeded; the list is reloaded |
| DriverView.Latch | components/DriverView.tsx:298-304 | a frozen location never changes |
| DriverView.FirstKnown | components/DriverView.tsx:296-304 | the first known reading, or none exactly when no reading is known |
| DriverView.LatchAllIsFirstKnown | components/DriverView.tsx:296-304 | after any run of live updates, the frozen location is the first known one |
| DriverView.RefusedIff | components/DriverView.tsx:335-351 | a success is accepted exactly with a signature or photo and a receiver name; a failure exactly with a reason (override first) |
| DriverView.AcceptedProofClosesInvoice | components/DriverView.tsx:356-367 | an accepted proof carries the form's fields on success, or "N/A", no evidence and the reason on failure; it takes the frozen location, and the store makes the invoice terminal |
| DriverView.DeliveryAction.constructor | components/DriverView.tsx:291-312 | the form opens on details, with the current location frozen and every field empty |
| DriverView.DeliveryAction.ObserveLocation | components/DriverView.tsx:298-304 | a live reading fills the frozen location only while it is unset |
| DriverView.DeliveryAction.OpenProofForm | components/DriverView.tsx:534 | "Realizar Baixa" moves from the details to the proof form and keeps what was typed |
| DriverView.DeliveryAction.BackToDetails | components/DriverView.tsx:394 | the back arrow returns from the proof form to the details and keeps what was typed |
| DriverView.DeliveryAction.SubmitDelivery | components/DriverView.tsx:334-377 | a refused submission changes nothing; otherwise the built proof goes to the store and the form reaches the success step |
| App.ToggledTheme | App.tsx:43-45 | the toggled theme is always "light" or "dark" |
| App.ToggledThemeTwice | App.tsx:43-45 | toggling twice restores "light" or "dark", and a toggle always changes the theme |
| App.Shell.constructor | App.tsx:9-17 | the app starts on the role choice with the stored theme or "light" |
| App.Shell.ToggleTheme | App.tsx:43-45 | the theme is toggled |
| App.Shell.ChooseDriverRole | App.tsx:116 | the driver role opens the driver login |
| App.Shell.ChooseAdminRole | App.tsx:129 | the manager role opens the manager login |
| App.Shell.AdminLoginBack | App.tsx:150-153 | back from the manager login returns to the role choice without the error |
| App.Shell.TypeAdminPassword | App.tsx:171-174 | typing the manager password clears the error |
| App.Shell.ConfirmAdminLogin | App.tsx:67-76 | the dashboard opens, with password and error cleared, exactly when the password verifies; otherwise only the error is set |
| App.Shell.DriverLoginBack | App.tsx:200 | back from the driver login returns to the role choice |
| App.Shell.HandleDriverLoginAttempt | App.tsx:47-51 | picking a driver selects it and clears password and error |
| App.Shell.TypeDriverPassword | App.tsx:253-256 | typing the driver password clears the error |
| App.Shell.CancelDriverLogin | App.tsx:269 | cancel clears the selected driver |
| App.Shell.ConfirmDriverLogin | App.tsx:53-65 | nothing without a selected driver; valid credentials open that driver's list and clear the prompt; otherwise only the error is set |
| App.Shell.Logout | App.tsx:213 | leaving either dashboard returns to the role choice |
| SignatureCanvas.AfterTap | components/ui/SignatureCanvas.tsx:81-94 | a tap under 300 ms after the recorded one unlocks and resets the time to 0; any other tap only records the time |
| SignatureCanvas.Pad.constructor | components/ui/SignatureCanvas.tsx:13-17 | the pad starts locked and empty, with the last tap at 0 and nothing reported |
| SignatureCanvas.Pad.HandleDoubleTap | components/ui/SignatureCanvas.tsx:81-94 | the state after a tap on the overlay of a locked pad |
| SignatureCanvas.Pad.ToggleLock | components/ui/SignatureCanvas.tsx:74-78 | the lock is flipped |
| SignatureCanvas.Pad.EndStroke | components/ui/SignatureCanvas.tsx:37-41 | a stroke on an unlocked pad makes it non-empty and reports the drawing; a locked pad draws nothing |
| SignatureCanvas.Pad.ClearSignature | components/ui/SignatureCanvas.tsx:66-72 | a mounted pad is cleared, shown empty, and reports "" |
| SignatureCanvas.EveryStepConsistent | components/ui/SignatureCanvas.tsx:37-94 | every handler keeps the shown emptiness equal to the pad's, and no drawing is reported while it shows empty |
| SignatureCanvas.InitialConsistent | components/ui/SignatureCanvas.tsx:13-17 | the initial state is consistent, with the overlay shown and drawing off |
| SignatureCanvas.DoubleTapUnlocks | components/ui/SignatureCanvas.tsx:81-94 | a first tap only records; a second under 300 ms later unlocks |
| SignatureCanvas.SlowTapsKeepLocked | components/ui/SignatureCanvas.tsx:81-94 | taps 300 ms or more apart never unlock the pad |
| SignatureCanvas.ToggleTwiceRestores | components/ui/SignatureCanvas.tsx:56-78 | two toggles restore the state; strokes on a locked pad change nothing |
| SignatureCanvas.StrokeThenClear | components/ui/SignatureCanvas.tsx:66-72 | after a stroke the eraser is offered; after clearing it is not, and "" is reported |
| JsText.Or | services/sefazApi.ts:38 | `a \|\| b` on strings yields one of the two, and is empty only when both are |
| JsText.OrElse | services/sefazApi.ts:34-45 | an absent or empty value falls back, a present one is kept |
| JsText.OnlyDigits | services/sefazApi.ts:13 | stripping non-digits leaves only digits, exactly the digits of the input, and never lengthens |
| JsText.OnlyDigitsOfChar | services/sefazApi.ts:13 | one character is kept exactly when it is a digit |
| JsText.OnlyDigitsConcat | services/sefazApi.ts:13 | the digits of a concatenation are the digits of each part, in order |
| JsText.OnlyDigitsIdempotent | services/sefazApi.ts:13 | stripping twice is stripping once |
| JsText.NatToString | services/db.ts:147 | a count prints as a non-empty digit string |
| JsText.NatToStringRoundTrip | services/db.ts:147 | the printed count reads back as the count |
| JsText.TrimNonEmpty | components/AdminView.tsx:260 | `trim()` is non-empty exactly when the text has a non-space character |
| JsText.ToLower | components/AdminView.tsx:334 | lower-casing maps every character and keeps the length |
| JsText.ToUpper | components/AdminView.tsx:261 | upper-casing maps every character and keeps the length |
| JsText.SplitJoin | components/DriverView.tsx:113 | joining parts free of the separator and splitting gives the parts back |

## Left out

- The hosted database client and every network call. Each remote step is a
  `...Fails` flag, or an arbitrary choice inside the bulk loop. A lookup reply is
  a `Reply` value.
- Database constraints (primary keys, foreign keys) are not visible in the
  code, and the model does not assume them.
- Db.Store.ConsumeNotifications: the update marks the recipient's unread rows,
  not the ids fetched. The two are the same set because the model runs the select
  and the update back to back. The race between them across devices is not
  modelled.
- Db.Store.AddNotification: the error log is left out.
- `init`, `getDrivers`, `getVehicles` and `getInvoices` are plain reads. The
  consoles' `Refresh` methods read the tables directly.
- `updateDriverLocation` and the GPS watch are left out.
- `updateAdminPassword` only shows an alert.
- NfeImport.Extracted: the invoice value is the caller's integer-cents input
  `valueCents`. Parsing the vNF text is not modelled, nor the NaN that
  `parseFloat(vNF || "0")` stores when vNF is not a number.
- Timers and polling are left out: the notification polls, `setTimeout` around
  the file reader, and toast auto-hide.
- `DOMParser` and `FileReader`. The XML is given as maps from tag name to the
  text of its first element, one map per block.
- Floating point:
  - `Number(valor_total)` in the public lookup is given as integer cents, `None`
    when it is NaN; the invoice value is then 0.
  - Latitude and longitude are opaque `real` values.
  - The `|| null` quirk that turns a coordinate of exactly 0 into null is not
    modelled.
- Search on `value.toString()` is modelled by `JsText.CentsText` only for values
  with at most two decimals.
- `Date.now()`, ISO time stamps and generated ids are parameters. The XML
  import reads the clock twice: `idMs` gives the id `inv-<ms>` and `keyMs` the
  generated key `GEN<ms>`; they are independent inputs.
- `alert`, `confirm`, `prompt`, `window.open` and `encodeURIComponent` are not
  modelled, nor the QR scanner setup. `confirm` is a boolean parameter. The
  return reason that `prompt` supplies is the `reasonOverride` parameter.
- The signature library's drawing and `toDataURL`: a stroke count and a data URL
  parameter stand for them.
- JSX rendering and styling, with one exception: the conditions that show or
  disable a control are stated as predicates (`StartRouteOffered`,
  `LogisticsEditable`, `ClearOffered`, `OverlayShown`).
- JsText.ToUpper: maps ASCII a-z and the Latin-1 letters à-þ (except ÷) one to
  one. JavaScript's `toUpperCase` also maps ß to "SS" (a longer string), ÿ to Ÿ
  and µ to Μ, and every letter outside Latin-1; none of those is modelled.
- JsText.ToLower: maps ASCII A-Z and the Latin-1 letters À-Þ (except ×) only;
  letters outside Latin-1 are left as they are.
- Db.Store.AddDriver: a failed insert leaves the table as it was, but the error
  that `addDriver` re-throws to its caller is not modelled.
- AdminView.AdminConsole.HandleLogisticsUpdate: the optimistic local list update
  is not modelled, because the refresh that follows overwrites it.
- AdminView.AdminConsole.ApplyBulkAssignment: the concurrent assignment promises
  are modelled as one after another, in an arbitrary order.
- AdminView.SortByCount: the stability of the JavaScript sort is not proved.
  Only sortedness and permutation are stated.
- AdminView deletion handlers (`handleDeleteInvoice`, bulk delete), the
  driver/vehicle forms, and the proof viewer are left out. The store operations
  they call are modelled.
- `return_type`, `return_items`, `photo_stub_url` and `notes` are declared on a
  proof but never set by the code. They stay absent in the model.

## Findings

| source | as written | input that shows it | evidently intended | confidence | as-written member | corrected member |
|---|---|---|---|---|---|---|
| components/DriverView.tsx:113 with components/AdminView.tsx:260-262 | the full route joins stops with '\|', but XML import writes " \|\| OBS/LOCAL: …" into addresses | two pending invoices, the first imported with infCpl "portao azul": its stop splits into three waypoints, one empty | each pending stop but the last is exactly one waypoint | not executed | DriverView.NoteSplitsWaypoint | DriverView.SafeFullRouteReadsBack |
