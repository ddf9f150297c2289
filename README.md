# WhatsApp bulk messenger: a Dafny model of the delivery engine

The application is an Electron desktop app. It drives WhatsApp Web in a headless browser to send
one message, or a spreadsheet of messages, to phone numbers. This project models its core and
proves properties of the model.

- **The `WhatsAppService` class of the main process** (modules `Probe`, `Delivery`, `Service`).
  - `start` launches the browser and detects a logged-in session. It runs up to 5 quick rounds
    over the side-panel selectors and stops at the first hit. Only when the quick rounds find
    nothing does it run one QR-code probe and then up to 120 polling rounds.
  - `stop` releases the session.
  - `sendSingleMessage` runs the send protocol:
    1. the guard;
    2. phone normalisation and navigation to the chat URL;
    3. a first-match probe over the composer selectors, for up to 20 rounds;
    4. insertion (clipboard, with `execCommand` as fallback) and a check of the text;
    5. Enter, and a check that the composer is empty.
  - `sendBulkMessages` runs the bulk loop: counters, `current = i + 1` progress, a random
    pause after every item, and a cancellation flag read at the loop head.
  - `stopBulk`, and the append-only log store (`addLog`, `saveLogs`, `getLogs`, `clearLogs`,
    and `loadLogs` through the constructor).
- **The renderer hook `useWhatsAppService`** (module `Hook`), modelled as a class.
  - It holds five state fields.
  - It has one method per event the main process sends.
  - It has the commands `startService`, `stopService`, `sendMessage`, `startBulk` and
    `stopBulk`.
  - It also has a reducer over event sequences, which connects the service's event log to
    what the renderer shows.
  - A ghost field `sent` records the `(phone, message)` pairs handed to `sendMessage`. Every
    other method leaves it as it was.
- **`App.handleSendToContacts`** (module `App`): the sequential per-phone send loop with a
  3-second pause between consecutive sends.
- **The single-message form** (module `SingleMessage`).
  - Recipient selection and validation in `send`.
  - The selection toggle and the list drop-down.
  - `ContactManager`: `save`, `startEditing`, `cancelEditing`, `saveEditing`, `addNumber`,
    `deleteNumber` and `deleteList`.
  - `TemplateManager`: `save` and `del`.
- **The spreadsheet upload `BulkMessage.handleFile`** (module `BulkMessage`): the valid-row
  filter and the decision whether to accept the rows.

## How the model works

- **The browser is an oracle.**
  - `Oracle = (nat, Selector) -> bool` says whether `page.$(selector)` finds an element during
    a given probe round. A query that throws is caught by the source and counts as no match.
  - Everything else one send observes is a `SendWorld` value:
    - the navigation error, if any;
    - the composer probe answers;
    - whether the clipboard paste ran;
    - the composer text read back after insertion and after Enter;
    - the timestamp;
    - whether writing `logs.json` succeeded.
  - A `StartWorld` says which set-up step of `start` throws, and what the side-panel and
    QR-code probes answer.
- **Probe rounds share one clock in `start`.** Quick rounds are 0–4 and polling rounds are
  5–124. So the whole authentication search is one `FirstHit` over 125 rounds. In the same way
  the composer search is one `FirstHit` over 20 rounds.
- **The service's outputs are fields.**
  - Events sent to the renderer window are appended to the field `events`.
  - The last successful write of `logs.json` is the field `saved`.
- **Cancellation** is an `interrupt: nat -> bool` parameter. `interrupt(i)` says that `stopBulk`
  ran while item `i - 1` was awaited. Nothing can run between setting the flag and the
  first check, so the first item is always attempted. `Attempted(interrupt, n)` is the number of
  items a run attempts.
- **The pause after each bulk item** is an arbitrary integer in [2000, 4999]. That is the range
  of `Math.floor(Math.random() * 3000) + 2000`.
- **A replay of the bulk run.** `BulkLogs`, `BulkEvents`, `SuccessCount`, `FailedCount` and
  `BulkDisk` replay the first `n` items of a run as pure functions. `SendBulkMessages` is proved
  equal to them. The bulk properties are lemmas about those functions.

### Behaviour of the code worth knowing

- `stop` sends `whatsapp:stopped` on every call that does not throw, including repeated calls and
  calls with no browser.
- A `start` that fails after `launch` or `newPage` returned keeps `browser` and `page` set. The
  error path does not release them.
- A bulk run with no session still counts every attempted item as failed and still sends the
  progress events. It appends no log record and no sent or failed event, because the guard of
  `sendSingleMessage` throws before its `try` block.
- The hook's `sendMessage` resolves normally when the reply is unsuccessful but carries no error
  (or an empty one). `stopService` ignores an unsuccessful reply altogether.
- The form's `send` hands the phones over untrimmed, and the message as typed.

## Model

| member | source | states |
|---|---|---|
| Delivery.CleanPhoneNumberSpec | frontend/src/main/whatsapp-service.ts:405-407 | the normalised number holds only digits, is a subsequence of the input (original order), and keeps every digit as often as it occurs |
| Delivery.CleanPhoneNumberIsFilter | frontend/src/main/whatsapp-service.ts:405-407 | removing every non-digit is the same as filtering the characters by `IsDigit` |
| Delivery.CleanPhoneNumberIdempotent | frontend/src/main/whatsapp-service.ts:405-407 | normalising twice equals normalising once |
| Delivery.CleanPhoneNumberAppend | frontend/src/main/whatsapp-service.ts:405-407 | normalisation distributes over concatenation |
| Delivery.CleanPhoneNumberExample | frontend/src/main/whatsapp-service.ts:405-407 | `"+1 (555) 000-1"` becomes `"15550001"` |
| Probe.FirstInRound | frontend/src/main/whatsapp-service.ts:217-227 | the index found in one round is the first selector, in list order, that matches in that round; `None` means none matches |
| Probe.FirstHitSpec | frontend/src/main/whatsapp-service.ts:216-233 | the hit of a multi-round probe lies in the round budget; its selector matches; no earlier round and no earlier selector in the same round matches; `None` means no selector matches in any round |
| Probe.FirstHitSplit | frontend/src/main/whatsapp-service.ts:78-138 | a search over rounds `[from, limit)` is a search over `[from, mid)`, followed by one over `[mid, limit)` when the first finds nothing; this lets the quick rounds and the polling rounds form one search |
| Probe.FirstHitNever | frontend/src/main/whatsapp-service.ts:216-240 | when no selector ever matches, the probe finds nothing |
| Probe.ProbeSelectors | frontend/src/main/whatsapp-service.ts:217-227 | one pass over the selector list returns the first match of the round, or `None` |
| Probe.ProbeComposer | frontend/src/main/whatsapp-service.ts:213-233 | the composer loop returns the first hit over 20 rounds; the number of one-second waits equals the number of rounds that found nothing before the hit, and is 20 without a hit |
| Probe.QuickSessionCheck | frontend/src/main/whatsapp-service.ts:78-95 | the quick check succeeds exactly when a side-panel selector matches in one of rounds 0–4; it stops after the round with the hit, and otherwise runs all 5 rounds |
| Probe.WaitForLogin | frontend/src/main/whatsapp-service.ts:112-138 | the polling loop succeeds exactly when a selector matches in round 5 up to round `5 + maxAttempts - 1` (5 to 124 for `start`); `attempts` counts the rounds that found nothing, and is `maxAttempts` on failure |
| Probe.PollAuthentication | frontend/src/main/whatsapp-service.ts:72-138 | the session is detected exactly when a side-panel selector matches in one of the 5 + 120 rounds; at most 125 rounds are probed; `needsQRScan` is set exactly when the quick check failed and a QR selector matched, and it does not affect the outcome |
| Service.StartReadyIff | frontend/src/main/whatsapp-service.ts:28-157 | `start` reports ready exactly when set-up succeeded and some side-panel selector matched within the 125 rounds; with a clean set-up it times out exactly when none matched |
| Service.StartIgnoresQrCode | frontend/src/main/whatsapp-service.ts:97-110 | what the QR probe answers never changes the outcome of `start` |
| Service.WhatsAppService.Start | frontend/src/main/whatsapp-service.ts:28-157 | the error is the set-up failure or the timeout error; exactly one of `whatsapp:ready` and `service:error` is sent; `browser` and `page` are set once their creating call returned; the rounds probed are bounded by 125, are 0 when set-up fails, and on success equal the hit round plus one; a held page always has its browser (`Valid`) |
| Service.WhatsAppService.Stop | frontend/src/main/whatsapp-service.ts:159-168 | the flag is cleared; with a browser present, the handles are released and `whatsapp:stopped` is sent unless `close` throws; with no browser, `whatsapp:stopped` is still sent and nothing else changes |
| Service.WhatsAppService.StopBulk | frontend/src/main/whatsapp-service.ts:400-403 | only the flag changes |
| Service.SendProtocol | frontend/src/main/whatsapp-service.ts:176-331 | the steps of the `try` block compute `SendOutcome`: the navigation error, then the composer error, then the paste error, then the still-in-input-box error, and otherwise success |
| Delivery.ComposerFoundIff | frontend/src/main/whatsapp-service.ts:213-240 | a composer is found exactly when some composer selector matches in one of the 20 rounds |
| Delivery.SendSucceedsIff | frontend/src/main/whatsapp-service.ts:176-331 | a send succeeds exactly when navigation does not throw, a composer selector matches in one of 20 rounds, the text read back after insertion has a non-space character, and the text after Enter is all white space |
| Delivery.ComposerMissingOutcome | frontend/src/main/whatsapp-service.ts:235-240 | a page that never shows a composer fails with "Message box not found for … after 20 attempts" |
| Delivery.SendFailureReasons | frontend/src/main/whatsapp-service.ts:176-348 | every failure is a navigation error or one of the three errors the protocol throws itself |
| Service.WhatsAppService.SendSingleMessage | frontend/src/main/whatsapp-service.ts:170-349 | without a session it throws "WhatsApp service not running" and appends no record and no event; otherwise it appends exactly one record at the end of `logs` and one event, with status success and no error, or status failed and the rethrown error; the file is rewritten when the write succeeds |
| Service.WhatsAppService.constructor | frontend/src/main/whatsapp-service.ts:22-26 | a new service has no session and no bulk run; its logs are the stored ones, or empty when there are none |
| Service.WhatsAppService.SaveLogs | frontend/src/main/whatsapp-service.ts:425-435 | a successful write stores the whole list; a failed one is swallowed and changes nothing |
| Service.WhatsAppService.AddLog | frontend/src/main/whatsapp-service.ts:413-423 | one record is appended at the end with the given fields, earlier records are unchanged, and the list goes to disk |
| Service.WhatsAppService.ClearLogs | frontend/src/main/whatsapp-service.ts:454-458 | `getLogs()` is empty afterwards, and the empty list goes to disk |
| Service.WhatsAppService.SendItem | frontend/src/main/whatsapp-service.ts:362-384 | one bulk item: `sendSingleMessage` and then a progress event with `current = i + 1` and the item's status |
| Delivery.BulkAdvance | frontend/src/main/whatsapp-service.ts:357-388 | one attempted item takes the run from `i` items to `i + 1` and increments exactly one counter |
| Service.WhatsAppService.AttemptItem | frontend/src/main/whatsapp-service.ts:362-384 | one iteration past the flag check moves the run state from `i` items to `i + 1` |
| Delivery.StopIndex | frontend/src/main/whatsapp-service.ts:358-361 | the first loop head, from `from` on, where the flag was found cleared; no earlier head saw it cleared |
| Delivery.Attempted | frontend/src/main/whatsapp-service.ts:354-361 | a run attempts between 1 and `total` items when `total > 0`; it stops only at a head where the flag was cleared, and never because of one that was not |
| Service.WhatsAppService.SendBulkMessages | frontend/src/main/whatsapp-service.ts:351-398 | the run attempts items 0, 1, … in order, up to the first head at which the flag is cleared; the counters, records, events and file are the replay of those items, and `successCount + failedCount` equals the number attempted; one pause in [2000, 4999] follows every attempted item, the last included; afterwards the flag is false and the completion event carries both counts and `logs` |
| Delivery.CountsAddUp | frontend/src/main/whatsapp-service.ts:357-388 | every attempted item is counted exactly once, as a success or as a failure |
| Delivery.OneLogPerAttempt | frontend/src/main/whatsapp-service.ts:357-388 | with a session, exactly one record per attempted item, in item order, with that item's number, text and outcome; none without a session |
| Delivery.ProgressInOrder | frontend/src/main/whatsapp-service.ts:362-384 | one progress event per attempted item, in item order; the `k`-th has `current = k + 1` (never above `total`), `total` the number of rows, the item's phone number and the status of its send |
| Delivery.ScenarioOneSentOneComposerMissing | frontend/src/main/whatsapp-service.ts:351-398 | two items, one delivered and one whose composer never appears: one success, one failure, two records, the second with the composer error |
| Hook.ServiceClient.constructor | frontend/src/hooks/useWhatsAppService.ts:49-53 | the initial state: not running, not processing, progress (0, 0), no logs, no error, and no `sendMessage` call yet |
| Hook.ServiceClient.OnReady | frontend/src/hooks/useWhatsAppService.ts:57-61 | `isRunning` becomes true and `error` null; the rest is unchanged |
| Hook.ServiceClient.OnStopped | frontend/src/hooks/useWhatsAppService.ts:63-67 | `isRunning` and `isProcessing` become false; the rest is unchanged |
| Hook.ServiceClient.OnMessageFailed | frontend/src/hooks/useWhatsAppService.ts:73-76 | `error` becomes the event's error; the rest is unchanged |
| Hook.ServiceClient.OnBulkProgress | frontend/src/hooks/useWhatsAppService.ts:78-81 | `progress` becomes the event's `(current, total)`; the rest is unchanged |
| Hook.ServiceClient.OnBulkCompleted | frontend/src/hooks/useWhatsAppService.ts:83-89 | `logs` is replaced by the event's logs, `isProcessing` is cleared and `progress` reset to (0, 0) |
| Hook.ServiceClient.OnServiceError | frontend/src/hooks/useWhatsAppService.ts:91-95 | `error` becomes the event's message; the rest is unchanged |
| Hook.ServiceClient.Dispatch | frontend/src/hooks/useWhatsAppService.ts:55-107 | delivering an event to its handler changes the state as the reducer `Apply` says; a `message:sent` event changes nothing |
| Hook.ItemEventsView | frontend/src/hooks/useWhatsAppService.ts:69-81 | the events of one bulk item change only `progress` and `error`, and leave `progress` at the item's `(i + 1, total)` |
| Hook.BulkEventsView | frontend/src/hooks/useWhatsAppService.ts:69-81 | during a bulk run the renderer shows `(n, total)` after n attempted items, and the run leaves `isRunning`, `isProcessing` and `logs` alone |
| Hook.BulkRunView | frontend/src/hooks/useWhatsAppService.ts:83-89 | after the completion event the renderer is not processing, its progress is (0, 0), it holds the event's logs, and `isRunning` is what it was before the run |
| Hook.ServiceClient.StartService | frontend/src/hooks/useWhatsAppService.ts:109-119 | `error` is cleared, then set by an unsuccessful reply carrying an error, or by a rejection |
| Hook.ServiceClient.StopService | frontend/src/hooks/useWhatsAppService.ts:121-127 | only a rejection sets `error`; every other reply changes nothing |
| Hook.ServiceClient.SendMessage | frontend/src/hooks/useWhatsAppService.ts:129-143 | the call is recorded; `error` is cleared; an unsuccessful reply with an error, or a rejection, sets it and is rethrown; any other reply resolves |
| Hook.ServiceClient.StartBulk | frontend/src/hooks/useWhatsAppService.ts:145-160 | `progress` becomes `(0, data.length)`; processing stays on exactly when no error was reported, and `error` is that error |
| Hook.ServiceClient.StopBulk | frontend/src/hooks/useWhatsAppService.ts:162-166 | when the call returns, processing has ended and progress is (0, 0); a rejection propagates before anything changes |
| App.ScheduleShape | frontend/src/renderer/App.tsx:18-30 | sends and pauses alternate: send k is at position 2k and goes to phone k, a 3000 ms pause follows every send but the last, and an empty list gives no action |
| App.ScheduleCounts | frontend/src/renderer/App.tsx:18-30 | the sends go exactly to the phones, once each and in index order, and there are `phones.length - 1` pauses (none for an empty list) |
| App.HandleSendToContacts | frontend/src/renderer/App.tsx:18-30 | the loop performs the schedule; the client receives exactly one `sendMessage` call per phone, in index order, with the message; a failure is caught and the next phone is still attempted; afterwards the hook's `error` is what the last call left |
| SingleMessage.SendSpec | frontend/src/renderer/components/SingleMessage.tsx:51-58 | a send is handed over exactly when the message has a non-space character and there is a recipient (`[phone]` in phone mode, the selection in list mode); a blank message is refused first |
| SingleMessage.ToggleSpec | frontend/src/renderer/components/SingleMessage.tsx:101 | deselecting removes every copy of the contact and keeps every other contact, as often and in the same order; selecting appends it at the end |
| SingleMessage.ToggleTwice | frontend/src/renderer/components/SingleMessage.tsx:101 | toggling an unselected contact twice restores the selection |
| SingleMessage.ChooseList | frontend/src/renderer/components/SingleMessage.tsx:82 | choosing a list makes it current and clears the selection; mode, phone and message stay |
| SingleMessage.ParseContactsWellFormed | frontend/src/renderer/components/SingleMessage.tsx:142 | every parsed contact is non-empty, has no white space at either end and no line break |
| SingleMessage.ParseContactsJoin | frontend/src/renderer/components/SingleMessage.tsx:142 | writing well-formed contacts one per line and parsing the text gives the same contacts back |
| SingleMessage.SaveListSpec | frontend/src/renderer/components/SingleMessage.tsx:140-151 | an empty name or text, or a text with no contact, is refused and changes nothing; otherwise exactly one list with the parsed contacts is appended after the existing ones, the form is cleared and the editor is untouched |
| SingleMessage.StartEditing | frontend/src/renderer/components/SingleMessage.tsx:153-156 | the editor holds the list's id and a copy of its contacts; the lists, the number field and the new-list form stay |
| SingleMessage.CancelEditing | frontend/src/renderer/components/SingleMessage.tsx:158-162 | the editor is reset; the lists and the new-list form are unchanged |
| SingleMessage.ReplaceContactsSpec | frontend/src/renderer/components/SingleMessage.tsx:166-168 | the replacement keeps the number and order of lists, gives each list with the id the new contacts, and leaves every other list unchanged |
| SingleMessage.SaveEditingSpec | frontend/src/renderer/components/SingleMessage.tsx:164-173 | an empty edit is refused and changes nothing; otherwise only lists with the edited id get the new contacts, the others are unchanged, the editor is reset and the new-list form stays |
| SingleMessage.AddNumberSpec | frontend/src/renderer/components/SingleMessage.tsx:175-180 | a number is accepted exactly when it has a non-space character and its untrimmed text starts with `+`; an accepted number is appended as its trimmed text, which still starts with `+`, the field is cleared and the lists and edited id stay; a refused one changes nothing |
| SingleMessage.TrimKeepsPlus | frontend/src/renderer/components/SingleMessage.tsx:177-178 | trimming a number that starts with `+` keeps the `+` |
| SingleMessage.WithoutIndexSpec | frontend/src/renderer/components/SingleMessage.tsx:183 | the filter on positions removes exactly the element at the index and keeps the rest in order; an index outside the sequence removes nothing |
| SingleMessage.DeleteNumberSpec | frontend/src/renderer/components/SingleMessage.tsx:182-184 | `deleteNumber(i)` removes exactly the contact at index `i` (nothing for an index outside the editor) and keeps the order of the rest; every other field, the edited id and the number field among them, stays |
| SingleMessage.WithoutIdSpec | frontend/src/renderer/components/SingleMessage.tsx:188 | no entry with the id is left, and every other entry is kept, as often and in the same order |
| SingleMessage.DeleteListSpec | frontend/src/renderer/components/SingleMessage.tsx:186-191 | a confirmed delete removes every list with the id and keeps the others in order, and no other field changes; a declined one changes nothing |
| SingleMessage.SaveTemplateSpec | frontend/src/renderer/components/SingleMessage.tsx:276-285 | an empty name or content is refused and changes nothing; otherwise exactly one template is appended at the end and the form is cleared |
| SingleMessage.DeleteTemplateSpec | frontend/src/renderer/components/SingleMessage.tsx:287-292 | a confirmed delete removes every template with the id and keeps the others in order, and the form's name and content stay; a declined one changes nothing |
| BulkMessage.ValidRowsSpec | frontend/src/renderer/components/BulkMessage.tsx:27 | the kept rows are exactly the rows with both cells non-empty, in input order and with their multiplicity; every dropped row lacks a phone number or a message |
| BulkMessage.NoValidRowsIff | frontend/src/renderer/components/BulkMessage.tsx:27-28 | no row is kept exactly when every row lacks a cell |
| BulkMessage.HandleFileSpec | frontend/src/renderer/components/BulkMessage.tsx:16-35 | no file changes nothing; a chosen file sets the file name; a read failure or a sheet with no valid row leaves the data unchanged and raises its alert; otherwise the data becomes the valid rows, which are non-empty |
| Text.TrimIsInfix | frontend/src/renderer/components/SingleMessage.tsx:142 | `trim` returns a contiguous slice of its input with no white space at either end, and removes only white space |
| Text.TrimEmptyIff | frontend/src/renderer/components/SingleMessage.tsx:52 | a string trims to empty exactly when every character is white space |
| Text.TrimIdempotent | frontend/src/renderer/components/SingleMessage.tsx:142 | trimming twice equals trimming once |
| Text.SplitJoin | frontend/src/renderer/components/SingleMessage.tsx:142 | splitting pieces joined by a separator that none of them contains gives the pieces back |
| Text.JoinSplit | frontend/src/renderer/components/SingleMessage.tsx:142 | joining the pieces of a split gives the text back |
| Common.FilterIsSubsequence | frontend/src/renderer/components/BulkMessage.tsx:27 | a filter keeps a subsequence of its input |
| Common.FilterMultiset | frontend/src/renderer/components/BulkMessage.tsx:27 | a filter keeps each element that passes as often as it occurs, and no other element |

## Left out

- Puppeteer itself is not modelled.
  - `launch`, `newPage`, `setUserAgent`, `goto`, `$`, `click`, `keyboard`, `evaluate` and the
    clipboard calls appear only through their answers in `StartWorld` and `SendWorld`.
  - The model assumes that the calls whose failure the source does not handle separately do
    not throw. These are the click, the keyboard, the text read-backs, the `execCommand`
    fallback `evaluate`, `page.url()`, the screenshot before the composer error and
    `mainWindow.webContents.send`. A throw there would replace the error message with its own.
- Real time is left out: the 1, 2, 3 and 8 second waits and `delay`. `ProbeComposer` returns the
  number of its one-second waits; `QuickSessionCheck` and `WaitForLogin` return the rounds or
  attempts they ran.
- `Math.random` is an arbitrary choice in [2000, 4999].
- The file system is the field `saved`.
  - `loadLogs` is the constructor's `stored` parameter.
  - The log directory is not modelled.
  - A write failure is modelled as leaving `saved` unchanged. The in-memory list stays
    authoritative.
- The Electron window lifecycle, IPC and `preload.ts` are transport.
  - `bulk:start` fires the run without awaiting it. In the model, another handler can
    interleave with the run only through the `interrupt` flag, read at each loop head.
  - A single send that runs concurrently with a bulk run is not modelled; the source does not
    define that case.
  - Two overlapping bulk runs are not modelled. After `stopBulk`, a second `bulk:start` can
    begin a new run while the first still awaits a send or its pause; the new run sets
    `isBulkProcessing` again, and the first then carries on at its next loop head. The
    `interrupt` flag can only clear the flag, so it cannot express this.
- Dialogs and browser storage are outside the model.
  - `alert` is returned as a value.
  - `confirm` is a parameter.
  - `localStorage` reads and writes are left out.
  - `Date.now()` ids are parameters.
  - The summary alert of `onBulkCompleted` is left out.
- The spreadsheet reader is replaced by its result. `FilePick` carries the rows XLSX produces,
  or `None` when reading throws. Cells are taken to be strings, so truthy means non-empty.
- The progress percentage `pct` is floating point and is left out. So are the styles and
  rendering.
- The following are left out as display only: the chat-name lookup, console logging, the
  "All"/"None" selection buttons and choosing a template (`onSelect`).
- Service.WhatsAppService.SendBulkMessages: a `stop` during a run is modelled only through the flag it clears (`interrupt`); the handles it releases, its `whatsapp:stopped` event and the failure of the item in flight on the released page are not modelled.
- Service.WhatsAppService.GetLogs: has no contract of its own; it is the `logs` field, stated through `AddLog`, `ClearLogs` and the bulk run.
- Probe.WaitForLogin: takes the selector list and the attempt budget as parameters. `start` calls it with the side-panel selectors and 120, through `PollAuthentication`.
- The single-message `send` is modelled up to the hand-over to `onSendMessage` (`SendSpec`).
  Its success alert is shown whatever the individual sends returned, because
  `handleSendToContacts` catches every failure. The model does not carry that alert.
- `types/index.ts` and `types/global.d.ts` hold only type declarations.
