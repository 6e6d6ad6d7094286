# Courier app decision logic, in Dafny

This project models the client-side decision logic of the sigmha courier
("entregador") app, a React Native application, and proves properties of it.
Every backend answer, push payload, clock reading and date parse is an input
of the model: a record, an option or an integer `now` in milliseconds.

What is modelled, one Dafny module per source file:

- `Offers` (`src/utils/offerGuards.ts` and its copy in `HomeScreen.tsx`):
  the offer key, the seconds left on a deadline, and the "still assigned to
  me" guard.
- `HomeOffers` (`HomeScreen.tsx`): the push intake with its 150 ms duplicate
  window, the offer on screen and the FIFO queue behind it, the countdown,
  and the accept and reject buttons.
- `HomeBoard` and `Stages` (`HomeScreen.tsx`, `DeliveryDetailsScreen.tsx`):
  status normalisation, the status-to-stage maps, the next-stage rule, the
  status poller's diff, and hold-to-confirm on the home board.
- `AcceptedDeliveries`, `DeliveryDrafts` and `Listeners`
  (`src/states/*.ts`): the two observable module stores.
- `DeliveryDetails` (`DeliveryDetailsScreen.tsx`): address canonicalisation,
  `toBool`, the draft locks and the finalize gating.
- `Incoming` (`IncomingDelivery.tsx`): the respond-once guard.
- `CheckButton` (`CheckButton.tsx`): the check-in/out presence machine.
- `Phone`, `Login` and `Auth` (`LoginScreen.tsx`, `AuthProvider.tsx`):
  phone normalisation and masking, the check response, the phone and
  password steps, and login and logout.
- `SignupFormat`, `SignupForm`, `SignupDocs` and `SignupApi`
  (`SignupScreen.tsx`, `SignupStep2Screen.tsx`, `src/api/signup.ts`): the
  input masks, the form validation and payload, the document checklist and
  the multipart request.
- `DateText` and `Reports` (`RecebimentosReport.tsx`): date parsing and
  printing, the delivery rows of a period, and the credit and debit split.
- `Vagas` (`VagasAgendamentoScreen.tsx`): date and time formatting and the
  two-step day picker.
- `OptionSelect` (`OptionSelect.tsx`): the selected option, the search, and
  the choose and clear actions.
- `Text`, `Json` and `Seqs` hold shared string, JavaScript-value and
  sequence helpers.

Pure code (formatters, parsers, predicates) is modelled as functions, with
lemmas relating each one to an independent statement of what it should do.
Code that updates state (React state and refs, the module stores) is
modelled as classes. Their methods' `ensures` tie the new state to a
specification function of the old state, and the lemmas about those
functions carry the properties.

## Model

| member | source | states |
|---|---|---|
| Offers.ExpiryOf | src/screens/HomeScreen.tsx:164-167 | a missing or empty (falsy) date value gives no expiry |
| Offers.SecsLeft | src/screens/HomeScreen.tsx:164-170 | no count without a parsed expiry; otherwise a count that is never negative, 0 once the deadline has passed, and the whole seconds left (floor) before it |
| Offers.SecsLeftNonIncreasing | src/utils/offerGuards.ts:4-10 | as time passes the count stays present or absent and never goes up |
| Offers.SecsLeftPositiveIff | src/utils/offerGuards.ts:4-10 | the count is positive exactly when at least 1000 ms remain |
| Offers.KeyHasIdPrefixIff | src/screens/HomeScreen.tsx:266-269 | a key built for delivery `id2` starts with "`id`:" exactly when `id2 == id` |
| Offers.DistinctIdsDistinctKeys | src/screens/HomeScreen.tsx:266-269 | different delivery ids never give the same key, whatever the expiries |
| Offers.SameIdKeyIff | src/screens/HomeScreen.tsx:266-269 | for one id, two keys are equal exactly when the expiry stamps are equal (so an unparsable expiry and epoch 0 share "id:0") |
| Offers.IdOrNameIff | src/utils/offerGuards.ts:48-54 | "id matches or name matches" is: the assigned id is the number equal to the courier's, or else both names are non-empty strings equal after trim and lower case |
| Offers.WithinTtlIff | src/utils/offerGuards.ts:56-60 | inside the TTL exactly when there is no parsed deadline or it is at least a second away |
| Offers.StillYoursIff | src/utils/offerGuards.ts:46-62 | the guard holds exactly when a record came back, its status is novo/pendente/await/waiting in any letter case, the id or name matches, and the TTL holds |
| Offers.NoRecordNotYours | src/utils/offerGuards.ts:29 | no answer from either route means false |
| Offers.ExpiredDeadlineRefused | src/utils/offerGuards.ts:56-62 | a record whose parsed deadline has passed is refused |
| Offers.OfferKey | src/screens/HomeScreen.tsx:266-269 | a key built for a delivery id starts with that id's prefix "`id`:", the prefix `clearAllKeysFor` looks for |
| Offers.StillYours | src/utils/offerGuards.ts:12-66 | the guard holds only when a record came back, its status is one of the waiting ones and its deadline is not past; `StillYoursIff` states the whole condition |
| Stages.NormStatus | src/screens/HomeScreen.tsx:1138-1145 | the normalised status is never empty (empty text becomes "novo") |
| Stages.NormStatusIsNormal | src/screens/DeliveryDetailsScreen.tsx:131-143 | a normalised status is already trimmed and lower-cased |
| Stages.NormStatusIdempotent | src/screens/HomeScreen.tsx:1148-1149 | normalising a normalised status changes nothing, so the second normalisation inside `statusToStage` is harmless |
| Stages.StageCopiesDisagreeOnlyWhenClosed | src/screens/DeliveryDetailsScreen.tsx:146-154 | the home and details `statusToStage` copies differ exactly on finalizado and cancelado |
| Stages.NextStageProgresses | src/screens/HomeScreen.tsx:1100-1107 | each hold before Finalizar brings the delivery one step closer to it, and Finalizar is the only stage `nextStage` keeps |
| Stages.AdvanceAgreesWithNextStage | src/screens/HomeScreen.tsx:1305-1317 | the status sent when advancing a non-final stage maps back, on both screens, to the stage `nextStage` gives |
| Stages.LabelFromStage | src/screens/DeliveryDetailsScreen.tsx:156-161 | the label is "Finalizar entrega" exactly for the last stage |
| Stages.LabelsDistinct | src/screens/HomeScreen.tsx:1093-1098 | different stages have different labels |
| Stages.StrictImpliesToBool | src/screens/DeliveryDetailsScreen.tsx:121-129 | a value the home screen reads as true (`coerceBoolStrict`), `toBool` also reads as true |
| Stages.ToBoolWiderThanStrict | src/screens/HomeScreen.tsx:1256-1262 | "s" and "2" are true for `toBool` and false for `coerceBoolStrict` |
| Stages.StatusToStageHome | src/screens/HomeScreen.tsx:1148-1155 | the home board shows Retornar only for "entregando" with a return leg, and a stage other than Coletar exactly for coletando, entregando and retornando |
| Stages.StatusToStageDetails | src/screens/DeliveryDetailsScreen.tsx:146-154 | the details screen shows Retornar only for "entregando" with a return leg, and Coletar exactly for the statuses other than coletando, entregando, retornando, finalizado and cancelado |
| Stages.NextStage | src/screens/HomeScreen.tsx:1100-1107 | every stage but Finalizar moves on, Retornar is reached exactly from Entregar with a return leg, and no hold leads back to Coletar |
| Stages.CoerceBoolStrict | src/screens/HomeScreen.tsx:1256-1261 | a boolean reads as itself, and only a non-nullish value can read as true |
| Stages.ToBool | src/screens/DeliveryDetailsScreen.tsx:121-129 | a boolean reads as itself, and only a non-nullish value can read as true |
| Listeners.Added | src/states/acceptedDeliveries.ts:36 | adding a listener keeps the set duplicate-free and its members are the old ones plus the new one |
| Listeners.Without | src/states/acceptedDeliveries.ts:37 | the returned unsubscribe removes exactly that listener and keeps the set duplicate-free |
| Listeners.Emit | src/states/acceptedDeliveries.ts:40-42 | the loop sends one notice to each listener, in set order, carrying the payload |
| Listeners.BroadcastReachesExactlyListeners | src/states/acceptedDeliveries.ts:40-42 | after an emit each subscribed listener has been called exactly once, and an unsubscribed one not at all |
| AcceptedDeliveries.WithAddedProperties | src/states/acceptedDeliveries.ts:19-24 | after an add the id is present, no entry is lost, at most one entry is added, and a list with unique ids keeps them unique |
| AcceptedDeliveries.WithAddedIdempotent | src/states/acceptedDeliveries.ts:19-24 | adding the same delivery twice is adding it once |
| AcceptedDeliveries.WithoutId | src/screens/HomeScreen.tsx:1296-1297 | filtering out an id removes exactly the entries with that id and keeps unique ids unique |
| AcceptedDeliveries.Store.constructor | src/states/acceptedDeliveries.ts:14-17 | the store starts with an empty list and no listeners |
| AcceptedDeliveries.Store.Add | src/states/acceptedDeliveries.ts:19-24 | a known id changes nothing and notifies nobody; otherwise the delivery is prepended to the unchanged old list and every listener is notified with the new list |
| AcceptedDeliveries.Store.SetAll | src/states/acceptedDeliveries.ts:26-29 | the list is replaced as given and every listener is notified |
| AcceptedDeliveries.Store.Get | src/states/acceptedDeliveries.ts:31-33 | returns the list last stored |
| AcceptedDeliveries.Store.Subscribe | src/states/acceptedDeliveries.ts:35-36 | the listener joins the set; list and notices are unchanged |
| AcceptedDeliveries.Store.Unsubscribe | src/states/acceptedDeliveries.ts:37 | the listener leaves the set, so later emits do not reach it |
| DeliveryDrafts.MergeCompose | src/states/deliveryDrafts.ts:25 | two writes to one draft equal one write of the combined patch (later fields win), stamped with the later time |
| DeliveryDrafts.MergeIdempotent | src/states/deliveryDrafts.ts:25 | repeating a write changes only the time stamp |
| DeliveryDrafts.MergeNoChange | src/states/deliveryDrafts.ts:25 | a write that gives no field only refreshes `updatedAt` |
| DeliveryDrafts.Store.constructor | src/states/deliveryDrafts.ts:11-12 | no drafts and no listeners at start |
| DeliveryDrafts.Store.Get | src/states/deliveryDrafts.ts:14-16 | a draft is returned exactly for an id that has one, and it is the stored draft |
| DeliveryDrafts.Store.GetAll | src/states/deliveryDrafts.ts:41-43 | returns the whole map |
| DeliveryDrafts.Store.Set | src/states/deliveryDrafts.ts:18-28 | only the entry for the id changes, to the old draft (or the defaults) overwritten by the given fields and stamped `now`; every listener is passed the id and the merged draft |
| DeliveryDrafts.Store.Clear | src/states/deliveryDrafts.ts:30-33 | only the id's entry is removed; every listener is passed the id and nothing |
| DeliveryDrafts.Store.Subscribe | src/states/deliveryDrafts.ts:35-36 | the listener joins the set; drafts and notices are unchanged |
| DeliveryDrafts.Store.Unsubscribe | src/states/deliveryDrafts.ts:37 | the listener leaves the set |
| DeliveryDrafts.FreshDraftDefaults | src/states/deliveryDrafts.ts:19-25 | a write to an unknown id starts from no photos, empty description and empty receiver name, and is stamped `now` |
| DeliveryDrafts.OtherIdsUntouched | src/states/deliveryDrafts.ts:26-31 | writing or clearing one id leaves every other id's draft as it was |
| HomeOffers.DuplicateWindow | src/screens/HomeScreen.tsx:271-277 | of two events for one key, the second is a duplicate exactly when it comes less than 150 ms after the first; other keys' time stamps are untouched |
| HomeOffers.KeysCleared | src/screens/HomeScreen.tsx:279-283 | clearing keeps only keys of the old map, with their old time stamps |
| HomeOffers.ClearKeysExactlyForId | src/screens/HomeScreen.tsx:279-283 | a key built for delivery `id2` survives clearing `id` exactly when it was there and `id2 != id` |
| HomeOffers.Stamped | src/screens/HomeScreen.tsx:402-404 | after stamping, an offer always has an expiry |
| HomeOffers.AcceptedNumber | src/screens/HomeScreen.tsx:949-955 | the public number the accept records is never nullish |
| HomeOffers.OfferNumber | src/screens/HomeScreen.tsx:501-543 | the offer's number is never nullish; a truthy number in the push is used as it is, and without one and without a fetched record the delivery id is used |
| HomeOffers.IntakeOffer | src/screens/HomeScreen.tsx:541-557 | the offer keeps the push's delivery id, has a non-nullish number (the push's own when truthy), no has-return field, and the push's client name when present |
| HomeOffers.CloseCoreSpec | src/screens/HomeScreen.tsx:385-390 | a close leaves no offer, countdown or alarm, keeps the queue, requests and alerts, and a render that showed nothing frees no key |
| HomeOffers.OpenSpec | src/screens/HomeScreen.tsx:399-436 | opening never changes the queue, requests or alerts, and without a courier changes nothing |
| HomeOffers.ShowSpec | src/screens/HomeScreen.tsx:421-433 | after showing, the countdown runs for the offer and sees the opening render's offer, and the alarm is on; with time left the offer, its count and the keys are as expected, at 0 the screen is empty again |
| HomeOffers.CloseSpec | src/screens/HomeScreen.tsx:383-397 | a close sends no request and shows no alert; without a next offer to open the screen is empty, the alarm off and the queue kept, otherwise the queue loses its head |
| HomeOffers.TickSpec | src/screens/HomeScreen.tsx:423-429 | a tick never changes the queue, requests, alerts or tab; with time left it only refreshes the count |
| HomeOffers.EnqueueOrOpenSpec | src/screens/HomeScreen.tsx:438-444 | enqueue-or-open sends no request and no alert, and while an offer is on screen only appends to the queue |
| HomeOffers.AcceptSpec | src/screens/HomeScreen.tsx:938-1044 | with nothing on screen the accept does nothing; it sends at most the one accept request for the offer on screen, and an id of 0 only shows "Erro" and keeps the offer |
| HomeOffers.RejectSpec | src/screens/HomeScreen.tsx:1046-1065 | with nothing on screen the reject does nothing; it sends at most the one reject request for the offer on screen, and an id of 0 only shows "Erro" and keeps the offer |
| HomeOffers.PushSpec | src/screens/HomeScreen.tsx:492-573 | a non-offer push changes nothing; a push sends no request and no alert, and adds at most one offer to the queue |
| HomeOffers.OpenIgnoresTakenKey | src/screens/HomeScreen.tsx:406-411 | an offer whose key is the one the opening render shows, or is in the queue, changes nothing |
| HomeOffers.OpenShowsOnlyGuardedOffers | src/screens/HomeScreen.tsx:414-421 | an offer reaches the screen only with a courier and a passing `abrirOferta` guard, and then it is the pushed offer with its expiry filled in; opening never touches the queue |
| HomeOffers.OpenRefusedGoesToDeliveries | src/screens/HomeScreen.tsx:415-419 | a refused `abrirOferta` guard only switches to the deliveries tab |
| HomeOffers.TtlLeavesFifteenSeconds | src/screens/HomeScreen.tsx:232 | a deadline 15000 ms away reads as 15 seconds |
| HomeOffers.OpenWithoutExpiryGetsTtl | src/screens/HomeScreen.tsx:402-404 | an offer without expiry that passes the guard is shown with a deadline exactly 15 s out and a count of 15 |
| HomeOffers.ExpiryDoesNotAdvanceQueue | src/screens/HomeScreen.tsx:423-429 | when the count reaches 0 the offer, count, countdown and alarm are cleared and the queue is kept |
| HomeOffers.FreshOfferExpiryKeepsKeys | src/screens/HomeScreen.tsx:423-429 | an offer opened on an empty screen expires through a `fecharOferta` that saw no offer, so no key is freed. Also lines 383-388. |
| HomeOffers.ChainedOfferExpiryFreesClosedKeys | src/screens/HomeScreen.tsx:383-397 | the offer a close opens from the queue counts down towards a `fecharOferta` that sees the closed offer; when it expires the keys freed are the closed delivery's. Also lines 423-429. |
| HomeOffers.ChainedOpenDropsCopyOfClosed | src/screens/HomeScreen.tsx:391-410 | the `abrirOferta` a close calls still sees the closed offer on screen, so a queued copy of that assignment is taken from the queue and dropped |
| HomeOffers.CloseProperties | src/screens/HomeScreen.tsx:383-397 | closing forgets the keys of the offer the closing render showed, and the offer on screen; without `abrirProxima` the queue is kept, with it the queue head is taken (an empty queue makes both the same) |
| HomeOffers.EnqueueWhileBusy | src/screens/HomeScreen.tsx:438-444 | while an offer is on screen a new one is appended to the queue without a key check and nothing else changes |
| HomeOffers.FailedAnswerKeepsOffer | src/screens/HomeScreen.tsx:1057-1061 | a refused accept or reject keeps the offer, the queue and the keys, and shows the "TEMPO EXPIRADO" alert. Also lines 958-962. |
| HomeOffers.AnswerAdvancesQueue | src/screens/HomeScreen.tsx:1040-1064 | a confirmed accept or reject takes the queue head (or leaves nothing on screen), the accept goes to the deliveries tab, and exactly one accept request was sent |
| HomeOffers.CloseNextOffer | src/screens/HomeScreen.tsx:391-394 | `fecharOferta(true)` takes the queue head, leaves nothing on screen when the queue is empty, and sends no request |
| HomeOffers.DuplicatePushIgnored | src/screens/HomeScreen.tsx:559-561 | a push repeating a key within 150 ms changes nothing |
| HomeOffers.PushPassesOpenRefuses | src/screens/HomeScreen.tsx:563-570 | an offer the push's guard passes and `abrirOferta`'s guard (lines 414-419) refuses is recorded as seen, not shown, and sends the courier to the deliveries tab |
| HomeOffers.CloseCoreInv | src/screens/HomeScreen.tsx:385-390 | closing keeps the desk invariant: an offer on screen has an expiry and is the one counting down, and the count is never negative |
| HomeOffers.OpenInv | src/screens/HomeScreen.tsx:399-436 | opening keeps the desk invariant |
| HomeOffers.TickInv | src/screens/HomeScreen.tsx:423-430 | a countdown tick keeps the desk invariant |
| HomeOffers.CloseInv | src/screens/HomeScreen.tsx:383-397 | closing, with or without the next offer, keeps the desk invariant |
| HomeOffers.EnqueueOrOpenInv | src/screens/HomeScreen.tsx:438-444 | enqueue-or-open keeps the desk invariant |
| HomeOffers.AcceptInv | src/screens/HomeScreen.tsx:938-1044 | the accept handler keeps the desk invariant |
| HomeOffers.RejectInv | src/screens/HomeScreen.tsx:1046-1065 | the reject handler keeps the desk invariant |
| HomeOffers.PushInv | src/screens/HomeScreen.tsx:492-573 | the push handler keeps the desk invariant |
| HomeOffers.Provisional | src/screens/HomeScreen.tsx:983-991 | the provisional entry carries the offer's id, the accept's public number, `has_retorno: false`, and the offer's client name when present |
| HomeOffers.ProvisionalResetsFlag | src/screens/HomeScreen.tsx:983-991 | the sync effect copies the provisional entry's `has_retorno: false` over the flag the accept had just set, so until the follow-up fetch answers a return leg reads as absent. Also lines 296-304. |
| HomeOffers.FreshNumber | src/screens/HomeScreen.tsx:1000-1006 | the number taken from the fetched record is never nullish |
| HomeOffers.Hydrated | src/screens/HomeScreen.tsx:1024-1034 | hydration keeps the list's length and every other entry, and gives the accepted entry the fetched number and has-return field, keeping its other fields |
| HomeOffers.Desk.constructor | src/screens/HomeScreen.tsx:253-263 | no offer, empty queue, no keys, on the status tab; the desk invariant holds |
| HomeOffers.Desk.AlreadyHandled | src/screens/HomeScreen.tsx:271-277 | answers whether the key is a duplicate and records `now` only when it is not |
| HomeOffers.Desk.ClearAllKeysFor | src/screens/HomeScreen.tsx:279-283 | the loop over a snapshot of the keys leaves exactly the keys without the id's prefix, and nothing else changes |
| HomeOffers.Desk.CloseCore | src/screens/HomeScreen.tsx:385-390 | stops the countdown and alarm, clears the keys of the offer the closing render showed, then the offer and the count |
| HomeOffers.Desk.Open | src/screens/HomeScreen.tsx:399-436 | the new state is `abrirOferta`'s for a render that showed `seen`: no-op on a key `seen` or the queue holds, or without a courier; deliveries tab on a refused guard; otherwise the stamped offer is shown, with a countdown that closes through that render's `fecharOferta` |
| HomeOffers.Desk.Show | src/screens/HomeScreen.tsx:421-433 | shows the offer, remembers which offer the countdown's `fecharOferta` sees, runs the first tick (closing at once, for that view, when it reads 0), and then starts the interval and the alarm even after such a close |
| HomeOffers.Desk.Close | src/screens/HomeScreen.tsx:383-397 | the new state is `fecharOferta`'s for a render that showed `seen`: countdown and alarm stopped, the keys of `seen` freed, nothing on screen, and with `abrirProxima` the queue head handed to the `abrirOferta` of the same render, which still sees `seen` on screen |
| HomeOffers.Desk.Tick | src/screens/HomeScreen.tsx:423-429 | the new state is one countdown tick's: the count is refreshed, and at 0 the offer is closed through the `fecharOferta` captured when it was opened, which frees the keys of the offer that render showed, not those of the expiring one |
| HomeOffers.Desk.EnqueueOrOpen | src/screens/HomeScreen.tsx:438-444 | the new state is `enfileirarOuAbrir`'s: opens through the latest render when nothing is on screen, otherwise appends to the queue |
| HomeOffers.Desk.HandlePush | src/screens/HomeScreen.tsx:492-573 | the new state is `handlePushData`'s: non-offer pushes, id 0 and duplicates are ignored; the key is recorded before the courier check and the push's own guard; the offer then goes through `enfileirarOuAbrir`, whose `abrirOferta` asks the backend a second time |
| HomeOffers.Desk.RecordAccepted | src/screens/HomeScreen.tsx:972-1035 | a confirmed accept sets the has-return flag from the offer and adds the provisional entry, with `has_retorno: false`, once; a fetched record then sets the flag from the record and hydrates the entry |
| HomeOffers.Desk.Accept | src/screens/HomeScreen.tsx:938-1044 | the desk follows `aceitarOferta`, closing through the render that showed the accepted offer; the store and has-return map change only after a confirmed accept of a real id with a courier, and then as `RecordAccepted` says |
| HomeOffers.Desk.Reject | src/screens/HomeScreen.tsx:1046-1065 | the desk follows `rejeitarOferta`, closing through the render that showed the rejected offer; nothing is stored |
| HomeBoard.StatusById | src/screens/HomeScreen.tsx:1197 | every listed id has a normalised status in the map |
| HomeBoard.StatusByIdLastWins | src/screens/HomeScreen.tsx:1197 | the status of an id is that of the last row carrying it, normalised |
| HomeBoard.StatusByIdOnlyListed | src/screens/HomeScreen.tsx:1197 | an id no row carries is not in the map |
| HomeBoard.KeepActive | src/screens/HomeScreen.tsx:1198-1214 | the keep-building loop returns exactly the deliveries that stay, in order |
| HomeBoard.KeepSpecMembers | src/screens/HomeScreen.tsx:1200-1214 | a delivery stays exactly when it was on the board and the listing has it with a status other than finalizado, cancelado and novo |
| HomeBoard.KeepSpecConcat | src/screens/HomeScreen.tsx:1200-1214 | keeping distributes over concatenation, so the kept deliveries keep their order |
| HomeBoard.KeepSpecNothingDropped | src/screens/HomeScreen.tsx:1216-1219 | nothing is dropped exactly when every delivery stays, and then the list is unchanged (so the store is not rewritten) |
| HomeBoard.KeepSpecIdempotent | src/screens/HomeScreen.tsx:1195-1219 | a second diff against the same listing drops nothing |
| HomeBoard.FindById | src/screens/HomeScreen.tsx:464 | `find` returns an entry exactly when one has the id, and it is a board entry with that id |
| HomeBoard.HasRetornoForCases | src/screens/HomeScreen.tsx:462-469 | the map entry wins; a board without the id reads as no return leg; otherwise the first matching entry's field decides |
| HomeBoard.Synced | src/screens/HomeScreen.tsx:296-308 | after the sync every old id and every board id has a flag |
| HomeBoard.SyncedDomain | src/screens/HomeScreen.tsx:296-308 | the flagged ids are exactly the old ones and the board's, and an id not on the board keeps its flag |
| HomeBoard.SyncedUndefinedFirstKeeps | src/screens/HomeScreen.tsx:302-304 | an entry without a has-return field keeps the flag its id had |
| HomeBoard.SyncedDefinedFirstWins | src/screens/HomeScreen.tsx:300-301 | an entry with a has-return field sets its id's flag to the field's strict reading |
| HomeBoard.SeededProperties | src/screens/HomeScreen.tsx:1112-1120 | seeding keeps every stage already set, gives each board entry a stage, and every stage it adds is Coletar |
| HomeBoard.Restaged | src/screens/HomeScreen.tsx:1221-1243 | restaging keeps every id it had and gives each kept, listed delivery a stage |
| HomeBoard.RestagedOthers | src/screens/HomeScreen.tsx:1224-1226 | deliveries that were not kept keep their stage |
| HomeBoard.RestagedKept | src/screens/HomeScreen.tsx:1225-1239 | a kept, listed delivery gets the stage its status maps to under its has-return flag (map first, else its own field) |
| HomeBoard.Board.constructor | src/screens/HomeScreen.tsx:260 | no stages, no has-return flags, no completed presses. Also line 1085. |
| HomeBoard.Board.Refresh | src/screens/HomeScreen.tsx:296-308 | the two effects run on a board change: stages seeded and has-return flags synced, nothing else changes. Also lines 1112-1120. |
| HomeBoard.Board.Restage | src/screens/HomeScreen.tsx:1221-1243 | the stage map becomes the restaged map; nothing else changes |
| HomeBoard.Board.ApplyBackendStatusDiffs | src/screens/HomeScreen.tsx:1188-1244 | an empty board changes nothing; otherwise the store holds the kept deliveries, is rewritten and notified only when something was dropped, and the stages are restaged |
| HomeBoard.Board.PollTick | src/screens/HomeScreen.tsx:765-776 | nothing happens without a courier, with an empty board or with an empty listing; otherwise the store holds the kept deliveries |
| HomeBoard.Board.OnHoldSuccess | src/screens/HomeScreen.tsx:1284-1318 | the press is marked complete; on Finalizar it finalizes (with a courier) and on success removes the delivery from the store; on other stages it sends the advance status and moves the stage only on success |
| HomeBoard.Board.OnHoldRelease | src/screens/HomeScreen.tsx:1321-1328 | a release after a completed press only clears the mark; any other release shows the hold error |
| HomeBoard.HoldThenPollAgree | src/screens/HomeScreen.tsx:1305-1317 | the status a confirmed hold sends maps back, through the poller, to the stage the board moved to. Also lines 1148-1155. |
| HomeBoard.KeepSpec | src/screens/HomeScreen.tsx:1198-1214 | the deliveries the diff keeps, in board order: each board entry whose id the listing has with a status other than finalizado, cancelado and novo; `KeepSpecMembers` and `KeepSpecConcat` state this |
| HomeBoard.Seeded | src/screens/HomeScreen.tsx:1112-1120 | the stage map after seeding: each board entry without a stage gets Coletar; `SeededProperties` states this |
| HomeBoard.HasRetornoFor | src/screens/HomeScreen.tsx:462-469 | the return-leg flag the board uses: the map entry, else the first board entry's defined field, else false; `HasRetornoForCases` states this |
| DeliveryDetails.SplitParts | src/screens/DeliveryDetailsScreen.tsx:88 | the address splits into at least one part, and no part holds a ',' or a dash |
| DeliveryDetails.CollapseSpaces | src/screens/DeliveryDetailsScreen.tsx:85-89 | collapsing runs of whitespace never makes the text longer |
| DeliveryDetails.CleanParts | src/screens/DeliveryDetailsScreen.tsx:89-90 | the kept parts are non-empty and already trimmed |
| DeliveryDetails.CanonicalizeAddress | src/screens/DeliveryDetailsScreen.tsx:77-109 | the seen-set loop returns the rendering of the case-insensitively deduplicated parts; a missing or empty address gives "" |
| DeliveryDetails.DedupSpecSnoc | src/screens/DeliveryDetailsScreen.tsx:93-100 | one loop step keeps a part exactly when its lower-cased key was not seen before |
| DeliveryDetails.KeysOfSnoc | src/screens/DeliveryDetailsScreen.tsx:97 | adding a part adds exactly its lower-cased key to the seen set |
| DeliveryDetails.DedupSpecProperties | src/screens/DeliveryDetailsScreen.tsx:93-100 | no two kept parts are equal up to case, every part is represented, every kept part is a part, and the first part survives |
| DeliveryDetails.RenderShape | src/screens/DeliveryDetailsScreen.tsx:102-106 | with three or more parts the text is "p0, p1 - p2 - …" |
| DeliveryDetails.JoinNonEmpty | src/screens/DeliveryDetailsScreen.tsx:105-108 | joining parts whose first is non-empty gives a non-empty text |
| DeliveryDetails.InferMime | src/screens/DeliveryDetailsScreen.tsx:164-171 | the upload type is always one of image/jpeg, image/png and image/webp |
| DeliveryDetails.InferMimeCases | src/screens/DeliveryDetailsScreen.tsx:164-171 | PNG exactly for a .png path and WebP exactly for a .webp path, the query string ignored; HEIC and anything else is JPEG |
| DeliveryDetails.EnsureFileUri | src/screens/DeliveryDetailsScreen.tsx:172-176 | on iOS a non-empty path gets the file scheme, elsewhere it is unchanged, and the path is always kept at the end |
| DeliveryDetails.EnsureFileUriIdempotent | src/screens/DeliveryDetailsScreen.tsx:172-176 | applying it twice is applying it once |
| DeliveryDetails.HydratedLocks | src/screens/DeliveryDetailsScreen.tsx:354-367 | each lock is the draft's flag (false when absent); the receiver lock is also set by a non-blank backend receiver name |
| DeliveryDetails.SyncThenHydrate | src/screens/DeliveryDetailsScreen.tsx:346-390 | the draft the sync effect merges holds the screen's photos, description and typed receiver name, and the locks hydrated from it are the saved ones, a backend-named receiver only adding the receiver lock |
| DeliveryDetails.MediaCheck | src/screens/DeliveryDetailsScreen.tsx:665-684 | the first route that answers decides; when none answers, both photos and signature count as missing |
| DeliveryDetails.FinalizeGate | src/screens/DeliveryDetailsScreen.tsx:732-754 | finalizing proceeds exactly when no signature is required or both signature and photos are on the backend; a missing signature is reported first |
| DeliveryDetails.UnreachableMediaBlocks | src/screens/DeliveryDetailsScreen.tsx:737-742 | with no route answering, a delivery requiring a signature is blocked asking for the signature. Also lines 682-683. |
| DeliveryDetails.ScreenEntregaId | src/screens/DeliveryDetailsScreen.tsx:292 | the delivery's own numeric id when it has one, the id the screen was opened with when the delivery's is missing, 0 when both are |
| DeliveryDetails.LoadedIdIsUsed | src/screens/DeliveryDetailsScreen.tsx:247-292 | after the fetch a numeric id in the answer is the id every later request and draft write uses; an answer without an id keeps the screen's id |
| DeliveryDetails.LoadSpec | src/screens/DeliveryDetailsScreen.tsx:227-290 | the details fetch: without an initial id or an answer nothing changes; otherwise each key the answer carries replaces the delivery's field, the signature flag becomes a boolean, and a saved signature turns the signature lock on |
| DeliveryDetails.LoadSpecCases | src/screens/DeliveryDetailsScreen.tsx:247-275 | id, status, has_retorno and recebedor_nome come from the answer when it has them and are kept otherwise; the signature flag is the answer's flag read by toBool, or the earlier reading when the answer has none; the signature lock is on iff it was or the answer has assinatura_url or assinatura_coletada_at; photos, description, other locks, modals, alerts and requests stay |
| DeliveryDetails.LoadIdempotent | src/screens/DeliveryDetailsScreen.tsx:247-275 | merging the same answer twice is merging it once |
| DeliveryDetails.HydrateSpec | src/screens/DeliveryDetailsScreen.tsx:346-369 | the hydration effect: photos, description, receiver name and locks from the stored draft, nothing without an id |
| DeliveryDetails.HydrateSpecCases | src/screens/DeliveryDetailsScreen.tsx:346-369 | photos and description become the draft's (none and "" without one), the locks are HydratedLocks, a stored receiver name replaces the delivery's and its absence keeps it; the rest of the delivery, the modals, the alerts and the requests stay |
| DeliveryDetails.ReturnRestoresScreen | src/screens/DeliveryDetailsScreen.tsx:346-390 | leaving and reopening the screen brings back the photos, description, photo and signature locks and a typed receiver name; the receiver lock returns, a backend-named receiver only adding to it |
| DeliveryDetails.SavePhotoSpec | src/screens/DeliveryDetailsScreen.tsx:495-521 | handleSavePhoto on the screen's state |
| DeliveryDetails.SavePhotoSpecCases | src/screens/DeliveryDetailsScreen.tsx:495-521 | nothing to send turns the photo lock off and closes the modal; a failed or thrown upload adds only the "Erro" alert; full success locks and empties the photos and closes the modal; the delivery, description, other locks, other flags and requests never change |
| DeliveryDetails.SentPhotosStayLocked | src/screens/DeliveryDetailsScreen.tsx:509-518 | after a fully successful upload and a sync, reopening the screen shows no photos to send and the photo lock on. Also lines 346-390. |
| DeliveryDetails.FinalizeSpec | src/screens/DeliveryDetailsScreen.tsx:721-781 | the finalize branch of the hold |
| DeliveryDetails.FinalizeSpecCases | src/screens/DeliveryDetailsScreen.tsx:721-781 | a missing courier adds "Erro" alone; a required signature or photo missing on the backend opens its modal with its alert after the media request; otherwise finalize is sent, a refusal adds "Falha", and a confirmed one sets Finalizado, adds "Finalizado" and goes back |
| DeliveryDetails.AdvanceSpec | src/screens/DeliveryDetailsScreen.tsx:783-793 | the status-advance branch of the hold from the stage the button showed, which is never the last |
| DeliveryDetails.AdvanceSpecCases | src/screens/DeliveryDetailsScreen.tsx:783-793 | exactly one status update is sent; only a confirmed one changes the status, to the one whose stage is nextStage, and a refusal adds "Falha"; proof and modals stay |
| DeliveryDetails.HoldSuccessSpec | src/screens/DeliveryDetailsScreen.tsx:711-797 | handleStatusHoldSuccess on the screen's state |
| DeliveryDetails.HoldSuccessSpecCases | src/screens/DeliveryDetailsScreen.tsx:711-797 | a concluded or id-less delivery is left alone; otherwise the hold flag is set and the advance or finalize outcomes above follow; going back happens only on a confirmed finalize; photos, description, locks and the hold hint never change |
| DeliveryDetails.HoldReleaseSpec | src/screens/DeliveryDetailsScreen.tsx:800-806 | the flag is cleared, the hold hint shows iff it did or the hold had not completed, and nothing else changes |
| DeliveryDetails.ReleaseAfterHold | src/screens/DeliveryDetailsScreen.tsx:711-806 | releasing after a completed hold clears the flag and never shows the hold hint |
| DeliveryDetails.Screen.constructor | src/screens/DeliveryDetailsScreen.tsx:186-219 | the screen opens on the delivery it was given, id included, with no photos, no locks, no modal and nothing sent |
| DeliveryDetails.Screen.Load | src/screens/DeliveryDetailsScreen.tsx:227-290 | the new state is LoadSpec of the old one |
| DeliveryDetails.Screen.Hydrate | src/screens/DeliveryDetailsScreen.tsx:346-369 | the new state is HydrateSpec of the old one with the store's draft for the screen's id (`ScreenEntregaId`) |
| DeliveryDetails.Screen.SyncDraft | src/screens/DeliveryDetailsScreen.tsx:372-390 | the store's draft for the screen's id becomes the merge of the screen's photos, description, name and locks; other ids are untouched |
| DeliveryDetails.Screen.SavePhoto | src/screens/DeliveryDetailsScreen.tsx:495-521 | the new state is SavePhotoSpec of the old one; only full success writes the draft, with no photos and the photo lock on |
| DeliveryDetails.Screen.HoldSuccess | src/screens/DeliveryDetailsScreen.tsx:711-797 | the new state is HoldSuccessSpec of the old one |
| DeliveryDetails.Screen.HoldFinalize | src/screens/DeliveryDetailsScreen.tsx:721-781 | the new state is FinalizeSpec of the old one |
| DeliveryDetails.Screen.HoldAdvance | src/screens/DeliveryDetailsScreen.tsx:783-793 | the new state is AdvanceSpec of the old one for the stage the hold started from |
| DeliveryDetails.Screen.HoldRelease | src/screens/DeliveryDetailsScreen.tsx:800-806 | the new state is HoldReleaseSpec of the old one |
| Incoming.AcceptedEntry | src/screens/IncomingDelivery.tsx:57-64 | the stored entry carries the offer's id, and its number is the ride code, or null exactly when the code is missing |
| Incoming.RunKeepsInv | src/screens/IncomingDelivery.tsx:32-89 | every handler keeps the screen's invariant (not busy, at most one answer, only once responded, a responded countdown stopped), and answers are only ever appended |
| Incoming.AtMostOneAnswer | src/screens/IncomingDelivery.tsx:47-79 | whatever the order of presses, guard, ticks and expiry, at most one accept or reject reaches the backend, and after it the countdown stays stopped. Also lines 12-13. |
| Incoming.ExpiryOnlyWithoutAnswer | src/screens/IncomingDelivery.tsx:31-36 | the expiry effect acts exactly at zero with no answer given, and then sends a reject |
| Incoming.SecondPressIgnored | src/screens/IncomingDelivery.tsx:47-77 | after an answer, accept and reject change nothing |
| Incoming.ExpiryNeverFiresAsWritten | src/screens/IncomingDelivery.tsx:9-36 | with no interval started, an offer nobody answers is never rejected by the expiry effect |
| Incoming.Ticks | src/screens/IncomingDelivery.tsx:10 | n ticks of the countdown interval |
| Incoming.TicksCountDown | src/screens/IncomingDelivery.tsx:9-10 | n ticks before anyone answers lower the countdown by n |
| Incoming.ExpiryFiresWithCountdown | src/screens/IncomingDelivery.tsx:32-36 | with the countdown ticking, 15 ticks and the expiry effect send exactly one reject. Also lines 9, 76-89. |
| Incoming.RunAppend | src/screens/IncomingDelivery.tsx:32-89 | running two event sequences one after the other is running their concatenation |
| Incoming.Screen.constructor | src/screens/IncomingDelivery.tsx:8-14 | the screen starts at 15 seconds, not responded, not busy, nothing sent |
| Incoming.Screen.StopTimer | src/screens/IncomingDelivery.tsx:38-44 | the countdown becomes -1 and nothing else changes |
| Incoming.Screen.CheckStillYours | src/screens/IncomingDelivery.tsx:16-29 | the screen goes back when the offer is no longer the courier's or the check threw |
| Incoming.Screen.Tick | src/screens/IncomingDelivery.tsx:9-10 | one second of a running countdown, never below zero |
| Incoming.Screen.OnAccept | src/screens/IncomingDelivery.tsx:46-74 | a let-through press sends one accept; success adds the entry to the accepted store and goes home, failure goes back |
| Incoming.Screen.OnReject | src/screens/IncomingDelivery.tsx:76-89 | a let-through press sends one reject and goes back whatever the answer |
| Incoming.Screen.OnSecondsChanged | src/screens/IncomingDelivery.tsx:32-36 | the expiry effect's new state is the expiry rule applied to the old |
| CheckButton.CheckStateSpec | src/components/CheckButton.tsx:16-26 | checked in only when some body said `checkedIn: true`; with no boolean answer the courier counts as checked out |
| CheckButton.GetCheckState | src/components/CheckButton.tsx:16-26 | the route loop returns the first boolean `checkedIn`, else false |
| CheckButton.DoCheck | src/components/CheckButton.tsx:28-56 | the route loop returns what the route rule says |
| CheckButton.DoCheckOkIff | src/components/CheckButton.tsx:28-56 | success exactly when some route answers 2xx before any route throws; the loop stops at the first throw or success, so a throw on the first route is a failure after one try |
| CheckButton.PollInterval | src/components/CheckButton.tsx:104 | 15 s exactly when checked in, else 30 s |
| CheckButton.TransitionsKeepInStep | src/components/CheckButton.tsx:79-182 | refresh, poll, long press, the 2 s timeout and release all keep the shown state equal to the last known backend state |
| CheckButton.PollAlertIff | src/components/CheckButton.tsx:106-123 | a poll announces an automatic check-out exactly on a checked-in to checked-out change with no own check-out suppressed; any change clears the suppression and is adopted |
| CheckButton.OwnCheckoutNotAnnounced | src/components/CheckButton.tsx:154-162 | after the courier's own check-out, neither the next poll nor one after the 2 s timeout announces an automatic check-out. Also lines 115, 171-173. |
| CheckButton.LongPressToggles | src/components/CheckButton.tsx:134-175 | the long press toggles the presence exactly when the call succeeds, marks the press complete and shows one alert |
| CheckButton.PressOutWarnsIff | src/components/CheckButton.tsx:177-182 | releasing warns exactly when the long press did not complete, and resets the flag |
| CheckButton.Button.constructor | src/components/CheckButton.tsx:62-67 | the button starts checked out with every flag false and nothing shown |
| CheckButton.Button.RefreshState | src/components/CheckButton.tsx:79-92 | the new state is the refresh rule applied to the backend's state |
| CheckButton.Button.PollTick | src/components/CheckButton.tsx:106-124 | the new state is the poll rule applied to the backend's state |
| CheckButton.Button.OnLongPress | src/components/CheckButton.tsx:134-175 | check-in or check-out by the shown state, and the new state is the long-press rule applied to that call's outcome |
| CheckButton.Button.EndSuppress | src/components/CheckButton.tsx:171-173 | the suppression flag is cleared |
| CheckButton.Button.OnPressOut | src/components/CheckButton.tsx:177-182 | the new state is the release rule applied to the old |
| Phone.NormalizePhoneDigits | src/screens/LoginScreen.tsx:37-45 | the normalised phone is digits only and at most 11 of them |
| Phone.NormalizationsAgree | src/context/AuthProvider.tsx:19-25 | the session's copy of the normalisation computes the same digits as the login screen's (src/screens/LoginScreen.tsx:37-45) |
| Phone.NormalizedIsSuffix | src/screens/LoginScreen.tsx:37-45 | the normalised phone is what is left of the typed digits after dropping some leading ones |
| Phone.PlainNumberKept | src/screens/LoginScreen.tsx:37-45 | a plain 10 or 11 digit number without a leading zero is kept unchanged |
| Phone.MaskKeepsDigits | src/screens/LoginScreen.tsx:47-53 | the mask only inserts punctuation: its digits read back are the number |
| Phone.MaskOfFullNumber | src/screens/LoginScreen.tsx:52 | an 11-digit number is shown as "(dd) ddddd-dddd" |
| Phone.MaskBRPhoneShowsNormalized | src/screens/LoginScreen.tsx:47-53 | the login mask shows exactly the normalised digits |
| Phone.MasksAgreeOnNormalized | src/screens/HomeScreen.tsx:86-92 | the profile tab's mask of a stored normalised phone equals the login mask of what was typed |
| Phone.ValidatePhone | src/screens/LoginScreen.tsx:156-166 | the phone passes exactly when it normalises to 10 or 11 digits, and then the normalised digits are kept |
| Login.FindContained | src/screens/LoginScreen.tsx:101 | a word is found only if the text contains it, and none is found exactly when the text contains no word of the list |
| Login.FindContainedFirst | src/screens/LoginScreen.tsx:101 | the word found is the first in list order that the text contains |
| Login.NormalizeCheckResponse | src/screens/LoginScreen.tsx:90-119 | no status exactly when the raw status is empty; a raw status, `exists: true`, `found: true` or a truthy id each make the courier exist |
| Login.StatusOf | src/screens/LoginScreen.tsx:100-106 | the status is missing exactly when the raw status is empty |
| Login.StatusIsFirstContained | src/screens/LoginScreen.tsx:90-119 | the status is a listed word exactly when the raw status contains one; it is "aprovado" exactly when the raw status contains "aprovado"; otherwise it is the raw status itself |
| Login.StatusOfFirstContained | src/screens/LoginScreen.tsx:99-106 | the same three facts about the status rule on a lower-cased text |
| Login.StatusOfListed | src/screens/LoginScreen.tsx:100-106 | a listed status comes exactly from the list search |
| Login.StatusOfApproved | src/screens/LoginScreen.tsx:100-106 | the status is "aprovado" exactly when the text contains "aprovado" |
| Login.GetsOf | src/screens/LoginScreen.tsx:73-79 | one GET per candidate path, in order |
| Login.PostsOf | src/screens/LoginScreen.tsx:81-86 | one POST per candidate path, in order |
| Login.Routes | src/screens/LoginScreen.tsx:63-86 | every candidate path by GET, then every one by POST |
| Login.FirstAnswer | src/screens/LoginScreen.tsx:73-87 | the index of the first route that answered with a body, and none only when no route did |
| Login.TryRoutes | src/screens/LoginScreen.tsx:73-87 | the loop stops at the first route with a body, having called exactly the routes up to it, or all routes when none answers |
| Login.CheckPhoneStatus | src/screens/LoginScreen.tsx:62-88 | the result is the normalised body of the first route that answered with one, or a throw when none did; the routes called are exactly those up to that first answer, or all of them |
| Login.CheckOutcomeIsFirstBody | src/screens/LoginScreen.tsx:72-87 | the check fails exactly when no route answered with a body; otherwise its result is the normalised body of a route that answered after every earlier route stayed silent |
| Login.FirstAnswerAt | src/screens/LoginScreen.tsx:73-87 | a route with a body preceded only by silent routes is the one that answers |
| Login.Decide | src/screens/LoginScreen.tsx:176-199 | the password step is reached exactly for an existing courier whose status is "aprovado", with the reported name or null |
| Login.ApprovedAdvances | src/screens/LoginScreen.tsx:176-199 | a raw "aprovado" status always leads to the password step |
| Login.Screen.constructor | src/screens/LoginScreen.tsx:134-154 | the screen starts at the phone step with every field empty |
| Login.Screen.OnChangePhone | src/screens/LoginScreen.tsx:261-273 | the typed phone is masked and normalised; editing it during the password step goes back to the phone step and clears the name and password |
| Login.Screen.OnChangePassword | src/screens/LoginScreen.tsx:300 | the password field holds what was typed |
| Login.Screen.ValidateLocally | src/screens/LoginScreen.tsx:156-166 | passes exactly when the phone validates, keeping its digits; otherwise sets the field error |
| Login.Screen.HandleCheckPhone | src/screens/LoginScreen.tsx:168-209 | an invalid phone stops; the first answering route decides between the password step and an alert; no answer shows "Falha ao verificar" |
| Login.Screen.CheckAndRespond | src/screens/LoginScreen.tsx:171-209 | after a valid phone, every route called is recorded in order, and the outcome of the check alone decides between the password step, the decision's alert and "Falha ao verificar" with the thrown message |
| Login.Screen.Respond | src/screens/LoginScreen.tsx:176-204 | an unregistered or not approved courier gets the matching alert and keeps the current step; an approved one moves to the password step with the name from the answer |
| Login.Screen.SubmitPassword | src/screens/LoginScreen.tsx:211-222 | a valid phone logs in with its normalised digits; a failed login leaves the session and adds exactly the "Falha no login" alert whose message is LoginFailureText of the error |
| Login.RequestFailureTextCases | src/screens/LoginScreen.tsx:218 | after a failed request the backend's own error text wins, then the exception's message; "Tente novamente" shows when both are empty |
| Auth.SafeUser | src/context/AuthProvider.tsx:90-95 | the user's name falls back from nome to name to "Usuário", the e-mail to null and the phone to the login number |
| Auth.LoginOutcomeCases | src/context/AuthProvider.tsx:81-105 | the login fails as invalid phone exactly when no digits remain, fails as a request failure carrying the request's error exactly when digits remain and the request threw, and succeeds exactly when the answer has a token and a user id; the user kept is the safe user |
| Auth.Session.constructor | src/context/AuthProvider.tsx:48-49 | the session starts with no token, no user and no request |
| Auth.Session.Login | src/context/AuthProvider.tsx:81-105 | the result is the login rule; a request is sent only for a phone with digits; success stores the token and user, failure changes nothing |
| Auth.Session.Logout | src/context/AuthProvider.tsx:107-115 | the token and user are cleared |
| Phone.MaskBRPhone | src/screens/LoginScreen.tsx:47-53 | the login mask of the normalised digits, cut to 11; `MaskBRPhoneShowsNormalized` states what it shows |
| Phone.MaskPhone | src/screens/HomeScreen.tsx:86-92 | the profile tab's mask of the last 11 digits; `MasksAgreeOnNormalized` relates it to the login mask |
| Login.CheckOutcome | src/screens/LoginScreen.tsx:72-87 | the check's result from the routes' answers; `CheckOutcomeIsFirstBody` states it is the first body |
| Auth.LoginOutcome | src/context/AuthProvider.tsx:81-105 | what `login` ends with, from the typed phone and the request's reply or failure; `LoginOutcomeCases` states the cases |
| SignupFormat.FindDotGroup | src/screens/SignupScreen.tsx:39-46 | the position found is a match of the dot-and-four-digits pattern at or after the start |
| SignupFormat.FindRun | src/screens/SignupScreen.tsx:47 | the position found starts a run of five digits at or after the start |
| SignupFormat.FormatCPFLayout | src/screens/SignupScreen.tsx:34-40 | the three CPF replacements produce the "ddd.ddd.ddd-dd" layout of the first 11 digits, cut short for fewer |
| SignupFormat.CpfLastGroup | src/screens/SignupScreen.tsx:39 | the hyphen replacement turns the two-dot text into the CPF layout |
| SignupFormat.FormatCPFDigits | src/screens/SignupScreen.tsx:34-40 | the CPF mask shows exactly the first 11 digits typed, and a full CPF reads "ddd.ddd.ddd-dd" |
| SignupFormat.CpfLayoutDigits | src/screens/SignupScreen.tsx:34-40 | the CPF layout holds exactly the digits it was given, in order |
| SignupFormat.CnpjDotsLayout | src/screens/SignupScreen.tsx:44-45 | the first two CNPJ replacements put dots after the 2nd and 5th digits, when there are more |
| SignupFormat.CnpjSlashLayout | src/screens/SignupScreen.tsx:46 | the third replacement puts the slash after the 8th digit, when there are more |
| SignupFormat.CnpjHyphenLayout | src/screens/SignupScreen.tsx:47 | the fourth replacement puts the hyphen after the 12th digit, completing the CNPJ layout |
| SignupFormat.FormatCNPJLayout | src/screens/SignupScreen.tsx:41-48 | the four CNPJ replacements produce the "dd.ddd.ddd/dddd-dd" layout of the first 14 digits |
| SignupFormat.FormatCNPJDigits | src/screens/SignupScreen.tsx:41-48 | the CNPJ mask shows exactly the first 14 digits typed, and a full CNPJ reads "dd.ddd.ddd/dddd-dd" |
| SignupFormat.CnpjLayoutDigits | src/screens/SignupScreen.tsx:41-48 | the CNPJ layout holds exactly the digits it was given, in order |
| SignupFormat.FormatDateBRProperties | src/screens/SignupScreen.tsx:49-54 | the date mask shows the first 8 digits typed, is 10 characters long exactly when all 8 are there, and then has slashes at positions 2 and 5 |
| SignupFormat.Alnums | src/screens/SignupScreen.tsx:56 | only letters and digits are kept, never more than there were |
| SignupFormat.PlateChars | src/screens/SignupScreen.tsx:56 | at most 7 characters, letters and digits, none lower case |
| SignupFormat.FormatPlateProperties | src/screens/SignupScreen.tsx:55-59 | the plate mask is the plate's characters with a hyphen at the fourth position only when there are more than 3 |
| SignupFormat.ClearedPhoneAsWrittenIsNotEmpty | src/screens/SignupScreen.tsx:28-30 | as written, an emptied phone field shows "(", which holds no digit |
| SignupFormat.FormatPhoneBRDigits | src/screens/SignupScreen.tsx:28-33 | the corrected phone mask shows exactly the first 11 digits typed, is empty exactly when none was typed, and otherwise agrees with the code as written |
| SignupFormat.PhoneLayoutDigits | src/screens/SignupScreen.tsx:31-32 | the phone layout holds exactly the digits it was given |
| SignupFormat.DigitsField | src/screens/SignupScreen.tsx:478-485 | the agency and account fields keep only digits, at most 6 and 12 of them, the first ones typed |
| SignupFormat.FormatCPF | src/screens/SignupScreen.tsx:34-40 | the CPF mask as the chain of replacements; `FormatCPFLayout` and `FormatCPFDigits` state what it shows |
| SignupFormat.FormatCNPJ | src/screens/SignupScreen.tsx:41-48 | the CNPJ mask as the chain of replacements; `FormatCNPJLayout` and `FormatCNPJDigits` state what it shows |
| SignupFormat.FormatDateBR | src/screens/SignupScreen.tsx:49-54 | the birth-date mask "dd/mm/aaaa"; `FormatDateBRProperties` states what it shows |
| SignupFormat.FormatPlate | src/screens/SignupScreen.tsx:55-59 | the plate mask; `FormatPlateProperties` states what it shows |
| SignupFormat.FormatPhoneBRAsWritten | src/screens/SignupScreen.tsx:28-33 | the phone mask as written, "(" before the first digit even when there is none; the form uses this one |
| SignupFormat.FormatPhoneBRAsWrittenDigits | src/screens/SignupScreen.tsx:28-33 | the phone mask as written shows exactly the first 11 digits typed, and is "(" exactly when no digit was typed |
| SignupFormat.FormatPhoneBR | src/screens/SignupScreen.tsx:28-33 | the phone mask with a field without digits left empty, the corrected half of the cleared-phone finding |
| SignupForm.Validate | src/screens/SignupScreen.tsx:204-226 | the form passes exactly when the required fields are filled, a payment method is chosen with its details, and the birth date has 10 characters; each alert is raised exactly when its check is the first to fail |
| SignupForm.ValidBirthDateHasEightDigits | src/screens/SignupScreen.tsx:221-224 | a passing form's birth date holds the 8 digits typed. Also line 335. |
| SignupForm.NewPixTypeNeedsKey | src/screens/SignupScreen.tsx:213-216 | after choosing a new PIX key type, a PIX form is refused until a key is typed. Also line 425. |
| SignupForm.PixKeyInput | src/screens/SignupScreen.tsx:196-201 | a CPF key is laid out "ddd.ddd.ddd-dd", a CNPJ key "dd.ddd.ddd/dddd-dd" and a phone key "(dd) ddddd-dddd" (with the opening parenthesis even before any digit, as written), each showing its first 11, 14 or 11 digits; any other type keeps the text as typed |
| SignupForm.ClearedPhonePassesAsWritten | src/screens/SignupScreen.tsx:28-30 | as written, a cleared phone field no longer trips the required-fields alert. Also lines 205, 289. |
| SignupForm.ClearedPhoneIsRequired | src/screens/SignupScreen.tsx:205 | with the corrected mask, a phone field with no digit trips the required-fields alert. Also line 289. |
| SignupForm.CadastroParcial | src/screens/SignupScreen.tsx:234-251 | the payload holds the trimmed fields, null for an empty CNPJ, and only the chosen payment method's details |
| SignupForm.PayloadHasOneMethod | src/screens/SignupScreen.tsx:209-250 | a payload carries either a PIX key and type or an agency, account and bank, never both, and they are filled in |
| SignupForm.Screen.constructor | src/screens/SignupScreen.tsx:169-191 | the form starts empty with the payment modal closed |
| SignupForm.Screen.OnChangeCelular | src/screens/SignupScreen.tsx:289 | the phone field holds the phone mask as written of what was typed, which shows its first 11 digits |
| SignupForm.Screen.OnChangePlaca | src/screens/SignupScreen.tsx:327 | the plate field holds the plate mask of what was typed |
| SignupForm.Screen.OnChangeNascimento | src/screens/SignupScreen.tsx:335 | the birth date field holds the date mask, 10 characters long exactly when 8 digits were typed |
| SignupForm.Screen.OnChangeCpf | src/screens/SignupScreen.tsx:343 | the CPF field holds the CPF mask, which shows the first 11 digits typed |
| SignupForm.Screen.OnChangeCnpj | src/screens/SignupScreen.tsx:351 | the CNPJ field holds the CNPJ mask, which shows the first 14 digits typed |
| SignupForm.Screen.ChoosePayMethod | src/screens/SignupScreen.tsx:401-410 | the chosen method is kept and the modal closes |
| SignupForm.Screen.ChoosePixType | src/screens/SignupScreen.tsx:425 | the key type is kept and the key typed so far is cleared |
| SignupForm.Screen.OnChangePixKey | src/screens/SignupScreen.tsx:196-201 | the key holds the mask of its type applied to what was typed, and shows the first 11 digits of a CPF or phone key and the first 14 of a CNPJ key. Also line 443. |
| SignupForm.Screen.OnChangeAgencia | src/screens/SignupScreen.tsx:478 | the agency field keeps at most 6 digits |
| SignupForm.Screen.OnChangeConta | src/screens/SignupScreen.tsx:485 | the account field keeps at most 12 digits |
| SignupForm.Screen.Prosseguir | src/screens/SignupScreen.tsx:229-260 | the screen moves on exactly when the form passes, with its partial registration; otherwise it raises the first failing check's alert |
| SignupDocs.Pos | src/screens/SignupStep2Screen.tsx:38-43 | every document type has a place in the checklist order |
| SignupDocs.With | src/screens/SignupStep2Screen.tsx:151-156 | replacing one type's files leaves every other type's files as they were |
| SignupDocs.AddFiles | src/screens/SignupStep2Screen.tsx:151-156 | the new files go at the end of their type's list and no other type changes |
| SignupDocs.MissingFrom | src/screens/SignupStep2Screen.tsx:295-297 | a type is listed exactly when it is among those asked about and has no file |
| SignupDocs.MissingFromKeepsOrder | src/screens/SignupStep2Screen.tsx:295-297 | filtering keeps the checklist order |
| SignupDocs.MissingProperties | src/screens/SignupStep2Screen.tsx:295-297 | the missing list names exactly the types with no file, in checklist order |
| SignupDocs.AllDocsOkIff | src/screens/SignupStep2Screen.tsx:299 | nothing is missing exactly when every type has a file |
| SignupDocs.AddFilesChecksOffType | src/screens/SignupStep2Screen.tsx:151-156 | attaching at least one file takes that type, and only it, off the missing list. Also lines 295-297. |
| SignupDocs.OrText | src/screens/SignupStep2Screen.tsx:192-193 | a non-empty text is kept, otherwise the fallback. Also lines 237-238. |
| SignupDocs.CameraFile | src/screens/SignupStep2Screen.tsx:187-198 | a camera photo keeps its uri and size, is an image from the camera, and is named camera.jpg and typed image/jpeg when the picker gave none |
| SignupDocs.GalleryFile | src/screens/SignupStep2Screen.tsx:235-241 | a gallery image keeps its uri and size, is an image not from the camera, and is named foto.jpg and typed image/jpeg when the picker gave none |
| SignupDocs.GalleryFiles | src/screens/SignupStep2Screen.tsx:235-242 | one file per picked image, in order |
| SignupDocs.KindOf | src/screens/SignupStep2Screen.tsx:278-281 | pdf exactly when the lower-cased type mentions "pdf", otherwise image exactly when it mentions "image", otherwise other |
| SignupDocs.DocName | src/screens/SignupStep2Screen.tsx:273-274 | the document's own name when it has one, and never empty |
| SignupDocs.DocFile | src/screens/SignupStep2Screen.tsx:271-284 | the type is mimeType, else the older type field, else none, and the kind follows it |
| SignupDocs.DocFiles | src/screens/SignupStep2Screen.tsx:271-286 | one file per picked document, in order |
| SignupDocs.ImageFiles | src/screens/SignupStep2Screen.tsx:187-198 | the camera attaches only the first asset; the gallery attaches every asset. Also lines 234-242. |
| SignupDocs.Bullets | src/screens/SignupStep2Screen.tsx:306 | one "• title" line per missing type, in order |
| SignupDocs.FinalizeResult | src/screens/SignupStep2Screen.tsx:318-351 | the registration is created exactly when the answer's body carries an id; a body without one fails with the no-id message, and every failure has the "(Copiado)" title |
| SignupDocs.Screen.constructor | src/screens/SignupStep2Screen.tsx:117-133 | no files, no modal, no chooser, nothing sent |
| SignupDocs.Screen.OpenModal | src/screens/SignupStep2Screen.tsx:141-144 | the modal opens for the chosen type |
| SignupDocs.Screen.CloseModal | src/screens/SignupStep2Screen.tsx:145-149 | the modal and chooser close and the type is forgotten |
| SignupDocs.Screen.OpenChooser | src/screens/SignupStep2Screen.tsx:398 | the chooser opens and nothing else changes. Also line 558. |
| SignupDocs.Screen.CloseChooser | src/screens/SignupStep2Screen.tsx:590-592 | the chooser closes and nothing else changes |
| SignupDocs.Screen.PickImages | src/screens/SignupStep2Screen.tsx:159-248 | the chooser closes; with a type chosen, a pick attaches its images to that type, a denied permission or an error only shows its alert. Also lines 636-655. |
| SignupDocs.Screen.PickDocuments | src/screens/SignupStep2Screen.tsx:250-291 | the chooser closes; with a type chosen, the picked documents are attached to that type, and an error only shows its alert. Also lines 666-669. |
| SignupDocs.Screen.Finalize | src/screens/SignupStep2Screen.tsx:303-355 | with a document missing nothing is sent and the missing ones are listed; otherwise everything is sent and only an answer with an id opens the success modal |
| SignupDocs.Screen.SuccessTimerFires | src/screens/SignupStep2Screen.tsx:330-336 | the success modal closes and the app returns to the login screen |
| SignupDocs.Missing | src/screens/SignupStep2Screen.tsx:295-297 | `missingDocTypes`; `MissingProperties` states which types it lists, in checklist order |
| SignupDocs.AllDocsOk | src/screens/SignupStep2Screen.tsx:299 | `allDocsOk`; `AllDocsOkIff` states it holds exactly when every type has a file |
| SignupApi.FixUri | src/api/signup.ts:17-21 | file:// and content:// URIs are kept, anything else gets the file scheme |
| SignupApi.FixUriIdempotent | src/api/signup.ts:17-21 | a fixed URI is file:// or content://, and fixing it again changes nothing |
| SignupApi.GuessName | src/api/signup.ts:23-26 | the file's own name when it ends in an extension of 2 to 4 letters or digits, else the fallback |
| SignupApi.ToRNFile | src/api/signup.ts:28-39 | the entry's uri is fixed, its name guessed, and its type is the file's own or the default for its kind |
| SignupApi.OrEmpty | src/api/signup.ts:58-65 | a missing text is sent as "" |
| SignupApi.TextParts | src/api/signup.ts:49-68 | sixteen text fields named nome, celular, email, endereco, modal, placa, nascimento, cpf, cnpj, pay_method, pix_type, pix_key, pix_bank, bank_name, agencia and conta, in that order; the registration's texts as they are, "PIX" or "BANCO", and "" for every absent optional field |
| SignupApi.SentPayload | src/api/signup.ts:49-68 | a passed form sends the chosen payment method, its filled-in details, and empty texts for the other method and a blank CNPJ |
| SignupApi.FallbackHasExtension | src/api/signup.ts:72-81 | every fallback name has a three-letter extension |
| SignupApi.FileEntries | src/api/signup.ts:71-82 | one entry per file of a type, in order |
| SignupApi.FileEntriesNamed | src/api/signup.ts:71-82 | every file goes under its type's "[]" field, in order, with a fixed uri and a name with an extension, its own or the numbered fallback |
| SignupApi.FileEntriesSnoc | src/api/signup.ts:71-82 | each loop step appends the next file's entry |
| SignupApi.AppendFiles | src/api/signup.ts:71-82 | the loop over a type's files appends exactly that type's entries |
| SignupApi.FormSize | src/api/signup.ts:46-91 | the form has the 16 text fields, one entry per attached file and the summary |
| SignupApi.BuildForm | src/api/signup.ts:46-91 | the form is the text fields, then each type's files in checklist order, then the summary |
| SignupApi.Outcome | src/api/signup.ts:94-110 | a non-OK response throws with its debug text; an OK one is parsed |
| SignupApi.NonOkFails | src/api/signup.ts:99-109 | a non-OK response always fails with its debug text; an OK one succeeds exactly when its body has an id |
| SignupApi.TextFieldsDistinct | src/api/signup.ts:49-68 | no text field name is sent twice |
| DateText.TwoDigits | src/screens/RecebimentosReport.tsx:31-32 | a zero-padded month or day is two digits that read back as the number |
| DateText.FourDigits | src/screens/RecebimentosReport.tsx:30 | a year from 1000 to 9999 is four digits that read back as the year |
| DateText.StrLeTotal | src/screens/RecebimentosReport.tsx:357-358 | the string order compares any two texts, and only equal texts both ways. Also line 302. |
| DateText.StrLeTransitive | src/screens/RecebimentosReport.tsx:357-358 | the string order is transitive. Also line 302. |
| DateText.DigitsOrder | src/screens/RecebimentosReport.tsx:357-358 | on digit texts of one length the string order is the order of the numbers. Also line 302. |
| DateText.DashedOrder | src/screens/RecebimentosReport.tsx:357-358 | two "y-m-d" texts with parts of equal lengths compare by the first part that differs. Also line 302. |
| DateText.DigitsCompare | src/screens/RecebimentosReport.tsx:357-358 | digit texts of one length are equal and ordered exactly as their numbers. Also line 302. |
| DateText.YmdTextOrder | src/screens/RecebimentosReport.tsx:29-34 | on four-digit years the string order of "yyyy-mm-dd" texts is the order of the dates, so the range test is a date range test. Also lines 302, 357-358. |
| DateText.SkipSpaces | src/screens/RecebimentosReport.tsx:39 | the index reached is past only white space and stops at the first other character. Also lines 51, 287. |
| DateText.NumAt | src/screens/RecebimentosReport.tsx:41-55 | n digits spell a number below 10^n |
| DateText.PickISO | src/screens/RecebimentosReport.tsx:285-290 | a picked text is exactly "dddd-dd-dd" |
| DateText.ParseISODateOnly | src/screens/RecebimentosReport.tsx:49-58 | a parsed date has non-zero parts of at most 4, 2 and 2 digits, and comes from a text pickISO also accepts |
| DateText.DayOrMonthAt | src/screens/RecebimentosReport.tsx:39 | one or two digits followed by '/', read as a number below 100 |
| DateText.ParseBRDate | src/screens/RecebimentosReport.tsx:37-46 | a parsed date has non-zero parts: a year of four digits, a month and a day of at most two |
| DateText.DashedLayout | src/screens/RecebimentosReport.tsx:33 | a "yyyy-mm-dd" text matches the ISO pattern at its start, with its parts in place. Also line 51. |
| DateText.ParseISOOfYmdText | src/screens/RecebimentosReport.tsx:49-58 | what ymdLocal writes, parseISODateOnly reads back as the same date, and pickISO keeps as is. Also lines 29-34, 285-290. |
| DateText.SlashedLayout | src/screens/RecebimentosReport.tsx:27-39 | a "dd/mm/yyyy" text matches the BR pattern at its start, with its parts in place |
| DateText.ParseBROfFmtDate | src/screens/RecebimentosReport.tsx:26-46 | what fmtDate writes, parseBRDate reads back as the same date |
| DateText.DashedIsYmdText | src/screens/RecebimentosReport.tsx:285-290 | a "yyyy-mm-dd" text with a four-digit year is the ymdLocal text of the date it spells. Also lines 29-34. |
| DateText.PickISOAgrees | src/screens/RecebimentosReport.tsx:285-290 | a date parseISODateOnly accepts with a four-digit year is the one pickISO picks out of the same text. Also lines 49-58. |
| DateText.YmdText | src/screens/RecebimentosReport.tsx:29-34 | the "yyyy-mm-dd" text of a date; `ParseISOOfYmdText` and `YmdTextOrder` state its properties |
| DateText.FmtDate | src/screens/RecebimentosReport.tsx:26-27 | the "dd/mm/yyyy" text of a date; `ParseBROfFmtDate` states that it reads back |
| DateText.StrLe | src/screens/RecebimentosReport.tsx:357-358 | JavaScript's `<=` on strings; `StrLeTotal` and `StrLeTransitive` state that it is a total order |
| Reports.PickEntregaDate | src/screens/RecebimentosReport.tsx:238-246 | the scheduled date when it parses, else the posted date |
| Reports.NormalizeStr | src/screens/RecebimentosReport.tsx:131-138 | "" for a missing or empty text, else the text trimmed and lower-cased |
| Reports.Assignee | src/screens/RecebimentosReport.tsx:338-342 | the first of atribuido_motoboy, entregador_nome and motoboy_nome that is present |
| Reports.SelfNorm | src/screens/RecebimentosReport.tsx:141-148 | the courier's own name is the first present of nome_completo, nome, full_name and name, as text, trimmed, then normalised; no such field gives the empty name. Also lines 331-332. |
| Reports.ByMotoboy | src/screens/RecebimentosReport.tsx:335-346 | with an empty own name every delivery stays; otherwise exactly the deliveries whose normalised assignee is the courier's name |
| Reports.Period | src/screens/RecebimentosReport.tsx:349-359 | the kept deliveries are exactly those whose date text lies between the bounds, each stamped with its date and that date's text |
| Reports.InPeriodIsDateRange | src/screens/RecebimentosReport.tsx:354-359 | on four-digit years the period test on texts is the date range test, both bounds included. Also lines 324-325. |
| Reports.InsertRow | src/screens/RecebimentosReport.tsx:360-362 | inserting a row adds exactly that row |
| Reports.SortRows | src/screens/RecebimentosReport.tsx:360-362 | the sort is a permutation ascending by date text |
| Reports.ReportRowsProperties | src/screens/RecebimentosReport.tsx:320-364 | the report lists exactly the deliveries of the period, with the name filter only when the courier has a name, ascending by date |
| Reports.RefDay | src/screens/RecebimentosReport.tsx:284-301 | an entry's day is its data_card date text, else the local day of created_at, and none when it has neither |
| Reports.ToLancamento | src/screens/RecebimentosReport.tsx:306-313 | the type is Debito exactly for "Debito", an empty note becomes null, and the other fields are kept |
| Reports.MapEntries | src/screens/RecebimentosReport.tsx:315-316 | one mapped entry per listed entry, in order |
| Reports.MapFilterMembers | src/screens/RecebimentosReport.tsx:315-316 | each mapped entry comes from a kept entry and each kept entry is mapped |
| Reports.EntriesOfMembers | src/screens/RecebimentosReport.tsx:305-316 | the credits or debits are exactly the mapped entries of the courier's entries of the period with that type in any case |
| Reports.DebitoIsNotCredito | src/screens/RecebimentosReport.tsx:308-315 | an entry listed as a credit is never mapped as a debit |
| Reports.CreditsAndDebits | src/screens/RecebimentosReport.tsx:305-317 | every credit is the courier's own credit entry of the period mapped as Credito, every debit its own debit entry, and no entry is both |
| Reports.Preferred | src/screens/RecebimentosReport.tsx:200 | a set data_card decides the date, none when it does not parse; otherwise created_at |
| Reports.DataView | src/screens/RecebimentosReport.tsx:201 | the shown date is "—" without a date, else the preferred date as dd/mm/yyyy |
| Reports.InsertTurno | src/screens/RecebimentosReport.tsx:204-208 | inserting a credit adds exactly that credit |
| Reports.SortTurnos | src/screens/RecebimentosReport.tsx:204-208 | the sort is a permutation ascending by date instant |
| Reports.TurnoPartition | src/screens/RecebimentosReport.tsx:195-214 | fixed-shift credits and other credits partition the credits; the fixed-shift ones are exactly those with a "turno fixo" note, ascending by date |
| Reports.TurnoOfCredits | src/screens/RecebimentosReport.tsx:124-128 | among the report's credits the fixed-shift split depends only on the note. Also lines 198, 212. |
| Reports.NameChain | src/screens/RecebimentosReport.tsx:141-148 | the courier's name is the first of nome_completo, nome, full_name and name that is present |
| Reports.ReportRows | src/screens/RecebimentosReport.tsx:320-364 | `load`'s rows; `ReportRowsProperties` states which rows and in which order |
| Reports.EntriesOf | src/screens/RecebimentosReport.tsx:305-316 | the credits or debits of the period; `EntriesOfMembers` states which |
| Reports.InPeriod | src/screens/RecebimentosReport.tsx:354-359 | the period test on date texts; `InPeriodIsDateRange` states it is the date range test |
| Reports.IsTurnoFixoObs | src/screens/RecebimentosReport.tsx:124-128 | a note marks a fixed-shift credit when it starts with "turno fixo" in any case |
| Vagas.DayMonthYear | src/screens/VagasAgendamentoScreen.tsx:166-174 | a text with fewer than three '-' parts or an empty part gives the fallback |
| Vagas.FormatDateBR | src/screens/VagasAgendamentoScreen.tsx:160-175 | a missing or empty value is shown as "—" |
| Vagas.FormatDateBROfDate | src/screens/VagasAgendamentoScreen.tsx:170-174 | a "yyyy-mm-dd" date, alone or followed by text without a 'T', is shown as that day in dd/mm/yyyy |
| Vagas.FormatDateBROfInstant | src/screens/VagasAgendamentoScreen.tsx:163-168 | an instant whose Brasília conversion starts with a "yyyy-mm-dd" date is shown as that day in dd/mm/yyyy |
| Vagas.DayMonthYearOfYmd | src/screens/VagasAgendamentoScreen.tsx:166-174 | a date's "yyyy-mm-dd" text is rewritten as the same day |
| Vagas.YmdTextParts | src/screens/VagasAgendamentoScreen.tsx:166-172 | a date's text splits at '-' into its year, month and day |
| Vagas.FormatDateBRMissingPart | src/screens/VagasAgendamentoScreen.tsx:171-173 | a date-only value without '-' in its first ten characters is shown as it is |
| Vagas.FormatTimeHM | src/screens/VagasAgendamentoScreen.tsx:185-199 | "—" for a missing or empty value and for an instant with no conversion; an instant shows its Brasília time; a value without ':' is shown as it is |
| Vagas.SplitOnCount | src/screens/VagasAgendamentoScreen.tsx:194-195 | a text splits into one part exactly when it has no separator |
| Vagas.FormatTimeHMOfParts | src/screens/VagasAgendamentoScreen.tsx:194-197 | a time "h:m" or "h:m:s" is shown as its hours and minutes, each padded to two characters |
| Vagas.Pad2Adds | src/screens/VagasAgendamentoScreen.tsx:196 | padding only adds zeros in front, and padding twice is padding once |
| Vagas.FormatTimeHMIdempotent | src/screens/VagasAgendamentoScreen.tsx:185-199 | showing a shown time again changes nothing |
| Vagas.FormatDateObjBR | src/screens/VagasAgendamentoScreen.tsx:177-183 | no date is shown as "—" |
| Vagas.FormatDateObjBRAgrees | src/screens/VagasAgendamentoScreen.tsx:160-183 | the picked day is shown as the same text as a slot's date of that day, and that text reads back as the day |
| Vagas.DateFlow.constructor | src/screens/VagasAgendamentoScreen.tsx:112-119 | the listed day is today, nothing is picked and no dialog is open |
| Vagas.DateFlow.DateForConfirmModal | src/screens/VagasAgendamentoScreen.tsx:313 | the confirmation shows the picked day, else the listed day |
| Vagas.DateFlow.OpenDatePicker | src/screens/VagasAgendamentoScreen.tsx:267-270 | the picker opens on the listed day |
| Vagas.DateFlow.OnChangeNativePicker | src/screens/VagasAgendamentoScreen.tsx:273-288 | cancelling closes the picker and forgets the pick; a chosen day closes it and opens the confirmation; the listed day never changes here |
| Vagas.DateFlow.CancelConfirm | src/screens/VagasAgendamentoScreen.tsx:291-294 | the confirmation closes, the pick is forgotten and the listed day stays |
| Vagas.DateFlow.ConfirmDate | src/screens/VagasAgendamentoScreen.tsx:297-303 | the picked day, when there is one, becomes the listed day, which is the day the confirmation showed; the confirmation closes |
| OptionSelect.Strip | src/components/OptionSelect.tsx:29-33 | stripping keeps the length (lower case only) |
| OptionSelect.Current | src/components/OptionSelect.tsx:49-52 | an option is selected exactly when some option has the selected value, and it is the first such option |
| OptionSelect.ButtonText | src/components/OptionSelect.tsx:89 | the selected option's label, else the placeholder |
| OptionSelect.Filtered | src/components/OptionSelect.tsx:54-58 | every option when search is off or the query is blank, and never more options than there are |
| OptionSelect.FilteredProperties | src/components/OptionSelect.tsx:54-58 | the search shows exactly the options whose stripped label holds the stripped query, in order |
| OptionSelect.OwnLabelShown | src/components/OptionSelect.tsx:54-58 | searching for an option's own label shows it |
| OptionSelect.ChosenIsCurrent | src/components/OptionSelect.tsx:179-182 | after choosing an option the selection is an option with its value, and is that option when values are distinct. Also lines 49-52. |
| OptionSelect.Picker.constructor | src/components/OptionSelect.tsx:46-47 | the list is closed with an empty query |
| OptionSelect.Picker.Open | src/components/OptionSelect.tsx:72 | pressing the field opens the list |
| OptionSelect.Picker.OnChangeQuery | src/components/OptionSelect.tsx:137 | the query is what was typed |
| OptionSelect.Picker.Close | src/components/OptionSelect.tsx:60-63 | the list closes and the query is cleared, so every option shows again |
| OptionSelect.Picker.Clear | src/components/OptionSelect.tsx:151-156 | clearing, offered only with a selection, reports null and closes |
| OptionSelect.Picker.Choose | src/components/OptionSelect.tsx:179-182 | choosing a listed option reports its value and closes |
| Text.Lower | src/screens/RecebimentosReport.tsx:137 | lower-casing keeps the length and maps each character on its own |
| Text.LowerIdempotent | src/screens/RecebimentosReport.tsx:137 | lower-casing twice is lower-casing once |
| Text.OnlyDigits | src/screens/LoginScreen.tsx:28 | the digits of a text, never more characters than it had |
| Text.OnlyDigitsConcat | src/screens/LoginScreen.tsx:28 | the digits of a concatenation are the digits of each part, in order |
| Text.OnlyDigitsOfDigits | src/screens/LoginScreen.tsx:28 | a text of digits is its own digits |
| Text.IntToString | src/screens/HomeScreen.tsx:1139 | String of an integer is non-empty, and digits only for a non-negative one |
| Text.Trim | src/screens/RecebimentosReport.tsx:136 | a trimmed text is never longer and neither starts nor ends with white space |
| Text.TrimIdempotent | src/screens/RecebimentosReport.tsx:136 | trimming twice is trimming once |
| Text.Pad2 | src/screens/RecebimentosReport.tsx:31-32 | padding gives at least two characters and keeps the text at the end |
| Text.Take | src/screens/SignupScreen.tsx:29 | slice(0, n) keeps the first n characters, or all of them when there are fewer |
| Text.SplitOn | src/screens/VagasAgendamentoScreen.tsx:166 | splitting gives at least one part and no part holds the separator. Also line 194. |
| Text.SplitOnJoin | src/screens/VagasAgendamentoScreen.tsx:166 | splitting undoes joining when no part holds the separator. Also line 194. |
| Json.Coalesce | src/screens/RecebimentosReport.tsx:142-147 | the first field that is not null or undefined, and null exactly when every field is |
| Json.OrElse | src/screens/LoginScreen.tsx:198 | a ?? b: a unless it is null or undefined |
| Json.NumberOf | src/screens/HomeScreen.tsx:498 | Number of a number is itself, Number(null) is 0 and Number(undefined) is NaN |
| Json.WordIsTrimmedLowerText | src/screens/HomeScreen.tsx:1139 | the screens' comparison form is String(v).trim().toLowerCase(). Also line 1249. |
| Json.WordIsNormal | src/screens/HomeScreen.tsx:1139 | a word is already trimmed and lower-case. Also line 1249. |
| Seqs.FilterMembers | src/screens/RecebimentosReport.tsx:305-316 | a filter keeps exactly the elements that pass the test |
| Seqs.FilterPartition | src/screens/RecebimentosReport.tsx:198-213 | filtering by a test and by its negation puts every element in exactly one of the two lists |
| Seqs.FilterConcat | src/components/OptionSelect.tsx:57 | filtering a concatenation filters each part, keeping list order |

## Left out

- HTTP I/O: every fetch and axios call, and the multipart upload itself. Each backend answer is a parameter of the operation: a flag, an optional record or a status listing. The loops that try a primary route and then a legacy one are modelled over one answer per route (`CheckButton.GetCheckState`, `CheckButton.DoCheck`, `Login.TryRoutes`, `Login.CheckPhoneStatus`, `DeliveryDetails.MediaCheck`).
- Push notifications, their channel setup and push-token registration (`src/utils/notifications.ts`, `App.tsx`, `HomeScreen.tsx` lines 846-893), and the websocket client in `src/services/echo.ts`: these are delivery mechanisms outside the decision logic.
- Timers: `setInterval` and `setTimeout` scheduling and the interleaving of awaited calls. Countdown ticks, poll ticks and the step-2 success timer are explicit methods that take `now` in milliseconds.
- React rendering is modelled only through what the offer handlers see: each `useCallback` closure sees the offer on screen of the render that created it. `HomeOffers.Desk.Open`, `Close` and `Show` take that view as the parameter `seen`, and the countdown keeps the view its `fecharOferta` was created with in `closeSees`.
- HomeOffers.Desk.HandlePush: one clock reading `now` serves the whole push (the duplicate window, both "still yours" guards, the expiry stamp and the first tick); the time that passes during the awaited fetches is not modelled. The two guards get separate answers (`pushAnswer`, `openAnswer`).
- The offer alarm sound, the location watch and permission prompts: these are device side effects. Of the alarm the model keeps only whether it is on (`alarmOn`), including the alarm `abrirOferta` starts after its first tick has already closed an expired offer.
- Clocks and date libraries: `Date.now` is the parameter `now`, and `Date.parse` is a parameter function whose result is a number of milliseconds or "unparsable".
- JavaScript `Date` month and day rollover, and the mapping of years 0-99 to 1900-1999: dates are plain (year, month, day) triples, so an impossible date such as 31/02 is accepted as written.
- The Intl time-zone conversion to Brasília time (`VagasAgendamentoScreen.tsx` lines 38-97 and 131-158): the converted text is a parameter of the formatters.
- Floating point and money: `parseNumberBR`, `parseMoneyBR`, `fmtMoney`, currency `toLocaleString`, the report totals (`RecebimentosReport.tsx` lines 185-230) and `toFixed`. Numbers in backend values are integers.
- OptionSelect.Strip: lower-cases only, because diacritic removal after NFD decomposition is not modelled. `Text.Lower` covers ASCII and Latin-1 capitals.
- Reports.NormalizeStr: trims and lower-cases only. Diacritic removal after NFD decomposition is not modelled, so "João" and "Joao" are different names here.
- Reports.IsTurnoFixoObs: tests a lower-cased prefix only. Diacritic removal is not modelled.
- `localeCompare` in the report sorts is modelled as character-code order, which agrees with it on the digit-and-dash date texts the sorts compare.
- Json.NumberOf and Stages.NumberNonZero: `Number` on strings reads decimal numerals with an optional sign (and, in `NumberNonZero`, a fraction) only; exponent, hexadecimal, octal and binary numerals and "Infinity" are read as not a number.
- Stages.ToBool: a numeral string other than the listed words is read through `Stages.NumberNonZero`, so an exponent, hexadecimal, octal or binary numeral, or "Infinity", reads as false.
- HomeOffers.PushId: the push's id is read through `Json.NumberOf`, so an id written with an exponent or in hexadecimal, octal or binary reads as no id.
- DeliveryDetails.Screen.Load: the answer arrives as the one record the fetch unwraps (from a list or a `rows` field, after the second route when the first answers empty); the fields of the delivery the screen never reads are not kept (its id is kept).
- DeliveryDetails.ScreenEntregaId: an id that is neither a number nor missing (a numeric string, say) reads as 0, so the screen then sends nothing; the app's ids are numbers.
- An assignee name field holding a value that is not a string, on which `normalizeStr` throws: the name fields of a delivery row are optional strings here.
- SecureStore persistence, session rehydration on start-up, React rendering, styles, theme and navigation: none of these hold decision logic.
- The `submitting`, `loading` and `saving` flags, which are true only while a request is awaited, and the clipboard copy of the debug text.
- Errors raised while parsing a response body with `res.json()`.
- The several result shapes of the document picker (the `output` list and the legacy `type` field) and the camera and gallery `canceled` flag: the picked files arrive as one sequence, empty when the user cancels.
- Login.Screen.SubmitPassword: the four-character password minimum that the form library checks before submitting (`LoginScreen.tsx` line 123) is not modelled; the method starts where that check has passed.
- The two `statusToStage` functions disagree on "finalizado" and "cancelado": the home board maps them to the collect stage and the details screen to the finish stage. Both are modelled as written (`Stages.StatusToStageHome` and `Stages.StatusToStageDetails`).
- Files with no decision logic: the presentational components, `src/types/signup.ts`, `src/config.ts`, `src/theme.ts`, `babel.config.js`, `make-alarm.js` and the axios wrapper `src/services/api.ts`.

## Findings

| source | as written | input that shows it | evidently intended | confidence | as-written member | corrected member |
|---|---|---|---|---|---|---|
| src/screens/IncomingDelivery.tsx:9-10 | nothing ever starts the countdown interval, so `seconds` stays at 15 and the expiry effect never rejects the offer | the screen is opened and left untouched | the countdown ticks once a second, and at zero the offer is rejected | not executed | Incoming.ExpiryNeverFiresAsWritten | Incoming.ExpiryFiresWithCountdown |
| src/screens/SignupScreen.tsx:28-33 | `formatPhoneBR("")` returns "(", so a cleared phone field is non-empty and passes the required-field check | type a phone number and erase it, with every other field filled in | a phone field with no digits is empty and the form is refused | not executed | SignupForm.ClearedPhonePassesAsWritten | SignupForm.ClearedPhoneIsRequired |
