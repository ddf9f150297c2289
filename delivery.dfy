/** The data `WhatsAppService` exchanges with its collaborators (log records,
    events sent to the renderer window, bulk input rows), the phone-number
    normalisation, and the outcome of one send as a function of what the
    browser answers. The service class itself is in module `Service`. */
module Delivery {
  import opened Common
  import opened Text
  import opened Probe

  datatype Status = Success | Failed | Skipped

  /** `MessageLog`: one record per attempted send. `phoneNumber` is the number as given, not normalised. */
  datatype MessageLog = MessageLog(timestamp: string, phoneNumber: string, message: string,
                                   status: Status, error: Option<string>)

  /** The messages `mainWindow.webContents.send` delivers to the renderer.
      `message:sent` always carries status `'success'`, so the status is left implicit. */
  datatype Event =
    | Ready                                                  // whatsapp:ready
    | Stopped                                                // whatsapp:stopped
    | MessageSent(phoneNumber: string)                       // message:sent
    | MessageFailed(phoneNumber: string, error: string)      // message:failed
    | BulkProgress(current: nat, total: nat, phoneNumber: string, status: Status)  // bulk:progress
    | BulkCompleted(successCount: nat, failedCount: nat, logs: seq<MessageLog>)    // bulk:completed
    | ServiceError(errorMessage: string)                     // service:error

  /** One row of bulk input (`{ phone_number, message }`). */
  datatype BulkRow = BulkRow(phone_number: string, message: string)

  /** The two ways the message text is put into the composer. */
  datatype Strategy = Clipboard | ExecCommand

  /** What the browser does during one `sendSingleMessage` call:
      - `navigate(url)`: the message of the error `page.goto(url)` throws, if it throws;
      - `composer`: the answers to the composer probe;
      - `clipboardOk`: whether the clipboard write and Ctrl+V ran without throwing
        (otherwise the `execCommand('insertText')` fallback runs);
      - `textAfterInsert(strategy)`: the composer's text read back after inserting with `strategy`;
      - `textAfterEnter`: the composer's text read back after pressing Enter;
      - `timestamp`: the ISO time `addLog` stamps; `diskOk`: whether writing `logs.json` succeeds. */
  datatype SendWorld = SendWorld(
    navigate: string -> Option<string>,
    composer: Oracle,
    clipboardOk: bool,
    textAfterInsert: Strategy -> string,
    textAfterEnter: string,
    timestamp: string,
    diskOk: bool)

  const NotRunning: string := "WhatsApp service not running"
  const PasteFailed: string := "Failed to paste message into chat box"
  const NotSent: string := "Message was not sent - still in input box"
  const AuthTimeout: string := "WhatsApp Web did not load within the timeout period. Please try again."
  const ChatUrlPrefix: string := "https://web.whatsapp.com/send?phone="

  function ComposerNotFound(phoneNumber: string): string {
    "Message box not found for " + phoneNumber + " after 20 attempts"
  }

  /** `String(phone).replace(/\D/g, '')`: every character that is not a decimal digit is removed. */
  function CleanPhoneNumber(phone: string): string {
    if phone == [] then []
    else (if IsDigit(phone[0]) then [phone[0]] else []) + CleanPhoneNumber(phone[1..])
  }

  /** The replacement keeps exactly the characters that satisfy `IsDigit`, as `filter` would. */
  lemma {:induction false} CleanPhoneNumberIsFilter(phone: string)
    ensures CleanPhoneNumber(phone) == Filter(phone, IsDigit)
  {
    if phone != [] {
      CleanPhoneNumberIsFilter(phone[1..]);
    }
  }

  /** The normalised number holds only digits, keeps their order, and keeps every digit. */
  lemma CleanPhoneNumberSpec(phone: string, c: char)
    ensures forall i :: 0 <= i < |CleanPhoneNumber(phone)| ==> IsDigit(CleanPhoneNumber(phone)[i])
    ensures IsSubsequence(CleanPhoneNumber(phone), phone)
    ensures multiset(CleanPhoneNumber(phone))[c] == if IsDigit(c) then multiset(phone)[c] else 0
  {
    CleanPhoneNumberIsFilter(phone);
    FilterIsSubsequence(phone, IsDigit);
    FilterMultiset(phone, IsDigit, c);
  }

  /** Normalising twice is normalising once. */
  lemma CleanPhoneNumberIdempotent(phone: string)
    ensures CleanPhoneNumber(CleanPhoneNumber(phone)) == CleanPhoneNumber(phone)
  {
    CleanPhoneNumberIsFilter(phone);
    CleanPhoneNumberIsFilter(CleanPhoneNumber(phone));
    FilterAll(CleanPhoneNumber(phone), IsDigit);
  }

  /** Normalisation works character by character, so it distributes over concatenation. */
  lemma {:induction false} CleanPhoneNumberAppend(a: string, b: string)
    ensures CleanPhoneNumber(a + b) == CleanPhoneNumber(a) + CleanPhoneNumber(b)
  {
    if a == [] {
      assert a + b == b;
    } else {
      var head := if IsDigit(a[0]) then [a[0]] else [];
      assert (a + b)[0] == a[0] && (a + b)[1..] == a[1..] + b;
      CleanPhoneNumberAppend(a[1..], b);
      assert CleanPhoneNumber(a + b) == head + (CleanPhoneNumber(a[1..]) + CleanPhoneNumber(b));
      assert head + (CleanPhoneNumber(a[1..]) + CleanPhoneNumber(b))
          == (head + CleanPhoneNumber(a[1..])) + CleanPhoneNumber(b);
    }
  }

  /** One step of the normalisation, taken at position `k`. */
  lemma CleanPhoneNumberAt(s: string, k: nat)
    requires k < |s|
    ensures CleanPhoneNumber(s[k..]) == (if IsDigit(s[k]) then [s[k]] else []) + CleanPhoneNumber(s[k + 1..])
  {
    assert s[k..][0] == s[k] && s[k..][1..] == s[k + 1..];
  }

  // The three pieces of the example below, normalised one character at a time; kept apart so
  // that each proof only unfolds a short literal.

  lemma CleanCountryCode(s: string)
    requires s == "+1 ("
    ensures CleanPhoneNumber(s) == "1"
  {
    assert CleanPhoneNumber(s[4..]) == [];
    CleanPhoneNumberAt(s, 3); CleanPhoneNumberAt(s, 2); CleanPhoneNumberAt(s, 1); CleanPhoneNumberAt(s, 0);
    assert s[0..] == s;
  }

  lemma CleanAreaCode(s: string)
    requires s == "555)"
    ensures CleanPhoneNumber(s) == "555"
  {
    assert CleanPhoneNumber(s[4..]) == [];
    CleanPhoneNumberAt(s, 3); CleanPhoneNumberAt(s, 2); CleanPhoneNumberAt(s, 1); CleanPhoneNumberAt(s, 0);
    assert s[0..] == s;
  }

  lemma CleanLocalNumber(s: string)
    requires s == " 000-1"
    ensures CleanPhoneNumber(s) == "0001"
  {
    assert CleanPhoneNumber(s[6..]) == [];
    CleanPhoneNumberAt(s, 5); CleanPhoneNumberAt(s, 4); CleanPhoneNumberAt(s, 3);
    CleanPhoneNumberAt(s, 2); CleanPhoneNumberAt(s, 1); CleanPhoneNumberAt(s, 0);
    assert s[0..] == s;
  }

  /** A number written with a `+`, a parenthesised area code, a space and a dash becomes
      its eight digits. */
  lemma CleanPhoneNumberExample(phone: string)
    requires phone == "+1 (555) 000-1"
    ensures CleanPhoneNumber(phone) == "15550001"
  {
    var a, b, c := phone[..4], phone[4..8], phone[8..];
    assert phone == (a + b) + c;
    CleanCountryCode(a);
    CleanAreaCode(b);
    CleanLocalNumber(c);
    CleanPhoneNumberAppend(a, b);
    CleanPhoneNumberAppend(a + b, c);
  }

  /** The conversation URL `sendSingleMessage` navigates to. */
  function ChatUrl(phoneNumber: string): string {
    ChatUrlPrefix + CleanPhoneNumber(phoneNumber)
  }

  function InsertStrategy(w: SendWorld): Strategy {
    if w.clipboardOk then Clipboard else ExecCommand
  }

  /** The result of the protocol in the `try` block of `sendSingleMessage` once the guard has
      passed: `None` when the message was sent, otherwise the message of the error thrown. */
  function SendOutcome(phoneNumber: string, w: SendWorld): Option<string> {
    var navigation := w.navigate(ChatUrl(phoneNumber));
    if navigation.Some? then navigation
    else if FirstHit(MessageBoxSelectors, w.composer, 0, ComposerRounds).None? then Some(ComposerNotFound(phoneNumber))
    else if Trim(w.textAfterInsert(InsertStrategy(w))) == [] then Some(PasteFailed)
    else if Trim(w.textAfterEnter) != [] then Some(NotSent)
    else None
  }

  /** Some composer selector is found exactly when one matches in one of the 20 rounds. */
  lemma ComposerFoundIff(composer: Oracle)
    ensures FirstHit(MessageBoxSelectors, composer, 0, ComposerRounds).Some? <==>
      exists t, j :: 0 <= t < ComposerRounds && 0 <= j < |MessageBoxSelectors| && composer(t, MessageBoxSelectors[j])
  {
    FirstHitSpec(MessageBoxSelectors, composer, 0, ComposerRounds);
    var hit := FirstHit(MessageBoxSelectors, composer, 0, ComposerRounds);
    if hit.Some? {
      assert composer(hit.value.round, MessageBoxSelectors[hit.value.index]);
    }
  }

  /** A send succeeds exactly when navigation did not throw, some composer selector matched in
      one of the 20 rounds, the text read back after inserting has a character that is not white
      space, and the text read back after Enter is all white space. */
  lemma SendSucceedsIff(phoneNumber: string, w: SendWorld)
    ensures SendOutcome(phoneNumber, w).None? <==>
      && w.navigate(ChatUrl(phoneNumber)).None?
      && (exists t, j :: 0 <= t < ComposerRounds && 0 <= j < |MessageBoxSelectors| && w.composer(t, MessageBoxSelectors[j]))
      && (exists i :: 0 <= i < |w.textAfterInsert(InsertStrategy(w))| && !IsSpace(w.textAfterInsert(InsertStrategy(w))[i]))
      && (forall i :: 0 <= i < |w.textAfterEnter| ==> IsSpace(w.textAfterEnter[i]))
  {
    ComposerFoundIff(w.composer);
    TrimEmptyIff(w.textAfterInsert(InsertStrategy(w)));
    TrimEmptyIff(w.textAfterEnter);
  }

  /** A chat whose page never shows a composer fails with the composer error. */
  lemma ComposerMissingOutcome(phoneNumber: string, w: SendWorld)
    requires w.navigate(ChatUrl(phoneNumber)).None?
    requires forall t, s :: !w.composer(t, s)
    ensures SendOutcome(phoneNumber, w) == Some(ComposerNotFound(phoneNumber))
  {
    FirstHitNever(MessageBoxSelectors, w.composer, 0, ComposerRounds);
  }

  /** Every failure is one of the errors the protocol names, or a navigation error. */
  lemma SendFailureReasons(phoneNumber: string, w: SendWorld)
    requires SendOutcome(phoneNumber, w).Some?
    ensures var e := SendOutcome(phoneNumber, w).value;
      || w.navigate(ChatUrl(phoneNumber)) == Some(e)
      || e == ComposerNotFound(phoneNumber) || e == PasteFailed || e == NotSent
  {
  }

  function StatusOf(outcome: Option<string>): Status {
    if outcome.None? then Success else Failed
  }

  /** The record `addLog` appends for a send with this outcome. */
  function LogFor(phoneNumber: string, message: string, w: SendWorld, outcome: Option<string>): MessageLog {
    MessageLog(w.timestamp, phoneNumber, message, StatusOf(outcome), outcome)
  }

  /** The event a send past the guard emits. */
  function SendEvent(phoneNumber: string, outcome: Option<string>): Event {
    if outcome.None? then MessageSent(phoneNumber) else MessageFailed(phoneNumber, outcome.value)
  }

  // ---------------------------------------------------------------------------------------
  // The bulk run, item by item. `live` is whether `page` and `browser` are set, which no step
  // of the run changes; when it is false every `sendSingleMessage` throws at its guard.
  // ---------------------------------------------------------------------------------------

  /** What `sendSingleMessage` raises for one bulk item. */
  function ItemOutcome(live: bool, row: BulkRow, w: SendWorld): Option<string> {
    if live then SendOutcome(row.phone_number, w) else Some(NotRunning)
  }

  /** The log records that one attempted item appends: none when the guard threw. */
  function ItemLogs(live: bool, row: BulkRow, w: SendWorld): seq<MessageLog> {
    if live then [LogFor(row.phone_number, row.message, w, SendOutcome(row.phone_number, w))] else []
  }

  /** The events one attempted item (number `i`, from 0) emits. */
  function ItemEvents(live: bool, i: nat, total: nat, row: BulkRow, w: SendWorld): seq<Event> {
    var outcome := ItemOutcome(live, row, w);
    var progress := BulkProgress(i + 1, total, row.phone_number, StatusOf(outcome));
    if live then [SendEvent(row.phone_number, outcome), progress] else [progress]
  }

  function BulkLogs(live: bool, data: seq<BulkRow>, worlds: nat -> SendWorld, n: nat): seq<MessageLog>
    requires n <= |data|
  {
    if n == 0 then [] else BulkLogs(live, data, worlds, n - 1) + ItemLogs(live, data[n - 1], worlds(n - 1))
  }

  function BulkEvents(live: bool, data: seq<BulkRow>, worlds: nat -> SendWorld, n: nat): seq<Event>
    requires n <= |data|
  {
    if n == 0 then []
    else BulkEvents(live, data, worlds, n - 1) + ItemEvents(live, n - 1, |data|, data[n - 1], worlds(n - 1))
  }

  function SuccessCount(live: bool, data: seq<BulkRow>, worlds: nat -> SendWorld, n: nat): nat
    requires n <= |data|
  {
    if n == 0 then 0
    else SuccessCount(live, data, worlds, n - 1) + (if ItemOutcome(live, data[n - 1], worlds(n - 1)).None? then 1 else 0)
  }

  function FailedCount(live: bool, data: seq<BulkRow>, worlds: nat -> SendWorld, n: nat): nat
    requires n <= |data|
  {
    if n == 0 then 0
    else FailedCount(live, data, worlds, n - 1) + (if ItemOutcome(live, data[n - 1], worlds(n - 1)).Some? then 1 else 0)
  }

  /** The content of `logs.json` after the first `n` items: each append rewrites the file with
      the whole list when the write succeeds and leaves it as it was when it fails. */
  function BulkDisk(live: bool, data: seq<BulkRow>, worlds: nat -> SendWorld, n: nat,
                    logs0: seq<MessageLog>, disk0: Option<seq<MessageLog>>): Option<seq<MessageLog>>
    requires n <= |data|
  {
    if n == 0 then disk0
    else if live && worlds(n - 1).diskOk then Some(logs0 + BulkLogs(live, data, worlds, n))
    else BulkDisk(live, data, worlds, n - 1, logs0, disk0)
  }

  /** The accumulated logs, events and counts after one more item. */
  lemma BulkStep(live: bool, data: seq<BulkRow>, worlds: nat -> SendWorld, i: nat,
                 logs0: seq<MessageLog>, disk0: Option<seq<MessageLog>>)
    requires i < |data|
    ensures BulkLogs(live, data, worlds, i + 1) == BulkLogs(live, data, worlds, i) + ItemLogs(live, data[i], worlds(i))
    ensures BulkEvents(live, data, worlds, i + 1) == BulkEvents(live, data, worlds, i) + ItemEvents(live, i, |data|, data[i], worlds(i))
    ensures SuccessCount(live, data, worlds, i + 1) == SuccessCount(live, data, worlds, i) + if ItemOutcome(live, data[i], worlds(i)).None? then 1 else 0
    ensures FailedCount(live, data, worlds, i + 1) == FailedCount(live, data, worlds, i) + if ItemOutcome(live, data[i], worlds(i)).Some? then 1 else 0
    ensures BulkDisk(live, data, worlds, i + 1, logs0, disk0) == if live && worlds(i).diskOk then Some(logs0 + BulkLogs(live, data, worlds, i + 1)) else BulkDisk(live, data, worlds, i, logs0, disk0)
  {
  }

  /** The state of a bulk run over `data` after its first `i` items, for a run that began with
      `logs0`, `events0` and `saved0`: the two counts, the records, the events and the file. */
  predicate BulkSoFar(live: bool, data: seq<BulkRow>, worlds: nat -> SendWorld, i: nat,
                      logs0: seq<MessageLog>, events0: seq<Event>, saved0: Option<seq<MessageLog>>,
                      successCount: nat, failedCount: nat,
                      logs: seq<MessageLog>, events: seq<Event>, saved: Option<seq<MessageLog>>)
  {
    && i <= |data|
    && successCount == SuccessCount(live, data, worlds, i)
    && failedCount == FailedCount(live, data, worlds, i)
    && logs == logs0 + BulkLogs(live, data, worlds, i)
    && events == events0 + BulkEvents(live, data, worlds, i)
    && saved == BulkDisk(live, data, worlds, i, logs0, saved0)
  }

  /** What one bulk item (number `i`, from 0) does to the records, the events and the file,
      going from `logs`, `events`, `saved` to `logs'`, `events'`, `saved'` with error `err`:
      past the guard, one record, the send event and the progress event; at the guard, only the
      progress event. */
  predicate ItemDone(live: bool, i: nat, total: nat, row: BulkRow, w: SendWorld,
                     logs: seq<MessageLog>, events: seq<Event>, saved: Option<seq<MessageLog>>,
                     err: Option<string>,
                     logs': seq<MessageLog>, events': seq<Event>, saved': Option<seq<MessageLog>>)
  {
    && (live ==>
          && err == SendOutcome(row.phone_number, w)
          && logs' == logs + [LogFor(row.phone_number, row.message, w, err)]
          && events' == events + [SendEvent(row.phone_number, err), BulkProgress(i + 1, total, row.phone_number, StatusOf(err))]
          && saved' == (if w.diskOk then Some(logs') else saved))
    && (!live ==>
          && err == Some(NotRunning) && logs' == logs && saved' == saved
          && events' == events + [BulkProgress(i + 1, total, row.phone_number, Failed)])
  }

  /** `sendSingleMessage`'s effect on one item followed by the item's progress event is `ItemDone`. */
  lemma ItemDoneAfterSend(live: bool, i: nat, total: nat, row: BulkRow, w: SendWorld,
                          logs: seq<MessageLog>, events: seq<Event>, saved: Option<seq<MessageLog>>,
                          err: Option<string>,
                          logs': seq<MessageLog>, events': seq<Event>, saved': Option<seq<MessageLog>>)
    requires !live ==> err == Some(NotRunning) && logs' == logs && events' == events && saved' == saved
    requires live ==>
      && err == SendOutcome(row.phone_number, w)
      && logs' == logs + [LogFor(row.phone_number, row.message, w, err)]
      && events' == events + [SendEvent(row.phone_number, err)]
      && saved' == (if w.diskOk then Some(logs') else saved)
    ensures ItemDone(live, i, total, row, w, logs, events, saved, err,
                     logs', events' + [BulkProgress(i + 1, total, row.phone_number, StatusOf(err))], saved')
  {
    if live {
      AppendTwo(events, SendEvent(row.phone_number, err), BulkProgress(i + 1, total, row.phone_number, StatusOf(err)));
    } else {
      assert StatusOf(err) == Failed;
    }
  }

  /** `ItemDone` in terms of the item's outcome, records and events. */
  lemma ItemDoneParts(live: bool, i: nat, total: nat, row: BulkRow, w: SendWorld,
                      logs: seq<MessageLog>, events: seq<Event>, saved: Option<seq<MessageLog>>,
                      err: Option<string>,
                      logs': seq<MessageLog>, events': seq<Event>, saved': Option<seq<MessageLog>>)
    requires ItemDone(live, i, total, row, w, logs, events, saved, err, logs', events', saved')
    ensures err == ItemOutcome(live, row, w)
    ensures logs' == logs + ItemLogs(live, row, w)
    ensures events' == events + ItemEvents(live, i, total, row, w)
    ensures saved' == if live && w.diskOk then Some(logs') else saved
  {
    if live {
      assert ItemEvents(live, i, total, row, w)
          == [SendEvent(row.phone_number, err), BulkProgress(i + 1, total, row.phone_number, StatusOf(err))];
    } else {
      assert ItemEvents(live, i, total, row, w) == [BulkProgress(i + 1, total, row.phone_number, Failed)];
    }
  }

  /** One attempted item takes the run from `i` items to `i + 1`, counting the item as a
      success or a failure by its error. */
  lemma BulkAdvance(live: bool, data: seq<BulkRow>, worlds: nat -> SendWorld, i: nat,
                    logs0: seq<MessageLog>, events0: seq<Event>, saved0: Option<seq<MessageLog>>,
                    successCount: nat, failedCount: nat,
                    logs: seq<MessageLog>, events: seq<Event>, saved: Option<seq<MessageLog>>,
                    err: Option<string>,
                    logs': seq<MessageLog>, events': seq<Event>, saved': Option<seq<MessageLog>>)
    requires i < |data|
    requires BulkSoFar(live, data, worlds, i, logs0, events0, saved0, successCount, failedCount, logs, events, saved)
    requires ItemDone(live, i, |data|, data[i], worlds(i), logs, events, saved, err, logs', events', saved')
    ensures BulkSoFar(live, data, worlds, i + 1, logs0, events0, saved0,
                      successCount + (if err.None? then 1 else 0), failedCount + (if err.Some? then 1 else 0),
                      logs', events', saved')
  {
    var row, w := data[i], worlds(i);
    BulkStep(live, data, worlds, i, logs0, saved0);
    ItemDoneParts(live, i, |data|, row, w, logs, events, saved, err, logs', events', saved');
    BulkLogsAdvance(live, data, worlds, i, logs0, saved0, logs, saved, logs', saved');
    BulkEventsAdvance(live, data, worlds, i, events0, events, events');
  }

  /** The records and the file after one more item. */
  lemma BulkLogsAdvance(live: bool, data: seq<BulkRow>, worlds: nat -> SendWorld, i: nat,
                        logs0: seq<MessageLog>, saved0: Option<seq<MessageLog>>,
                        logs: seq<MessageLog>, saved: Option<seq<MessageLog>>,
                        logs': seq<MessageLog>, saved': Option<seq<MessageLog>>)
    requires i < |data|
    requires logs == logs0 + BulkLogs(live, data, worlds, i)
    requires saved == BulkDisk(live, data, worlds, i, logs0, saved0)
    requires logs' == logs + ItemLogs(live, data[i], worlds(i))
    requires saved' == if live && worlds(i).diskOk then Some(logs') else saved
    ensures logs' == logs0 + BulkLogs(live, data, worlds, i + 1)
    ensures saved' == BulkDisk(live, data, worlds, i + 1, logs0, saved0)
  {
    BulkStep(live, data, worlds, i, logs0, saved0);
    assert logs0 + BulkLogs(live, data, worlds, i) + ItemLogs(live, data[i], worlds(i))
        == logs0 + (BulkLogs(live, data, worlds, i) + ItemLogs(live, data[i], worlds(i)));
  }

  /** The events after one more item. */
  lemma BulkEventsAdvance(live: bool, data: seq<BulkRow>, worlds: nat -> SendWorld, i: nat,
                          events0: seq<Event>, events: seq<Event>, events': seq<Event>)
    requires i < |data|
    requires events == events0 + BulkEvents(live, data, worlds, i)
    requires events' == events + ItemEvents(live, i, |data|, data[i], worlds(i))
    ensures events' == events0 + BulkEvents(live, data, worlds, i + 1)
  {
    BulkStep(live, data, worlds, i, [], None);
    assert events0 + BulkEvents(live, data, worlds, i) + ItemEvents(live, i, |data|, data[i], worlds(i))
        == events0 + (BulkEvents(live, data, worlds, i) + ItemEvents(live, i, |data|, data[i], worlds(i)));
  }

  /** The first iteration head, from `from` on, at which a `stopBulk` has cleared the flag. */
  function StopIndex(interrupt: nat -> bool, from: nat, total: nat): (r: nat)
    requires from <= total
    ensures from <= r <= total
    ensures forall j :: from <= j < r ==> !interrupt(j)
    ensures r < total ==> interrupt(r)
    decreases total - from
  {
    if from == total then total
    else if interrupt(from) then from
    else StopIndex(interrupt, from + 1, total)
  }

  /** How many items a bulk run of `total` items attempts. `interrupt(i)` says that `stopBulk`
      ran during the awaits of item `i - 1`; nothing can run between `isBulkProcessing = true`
      and the first check, so the first item is always attempted. */
  function Attempted(interrupt: nat -> bool, total: nat): (r: nat)
    ensures r <= total
    ensures total > 0 ==> r >= 1
    ensures forall j :: 1 <= j < r ==> !interrupt(j)
    ensures 0 < r < total ==> interrupt(r)
  {
    if total == 0 then 0 else StopIndex(interrupt, 1, total)
  }

  /** Every attempted item is counted exactly once, as a success or as a failure. */
  lemma {:induction false} CountsAddUp(live: bool, data: seq<BulkRow>, worlds: nat -> SendWorld, n: nat)
    requires n <= |data|
    ensures SuccessCount(live, data, worlds, n) + FailedCount(live, data, worlds, n) == n
  {
    if n > 0 {
      CountsAddUp(live, data, worlds, n - 1);
    }
  }

  /** With a live session the run appends exactly one record per attempted item, in item order,
      each for that item's number and text and with that item's outcome; with no session it
      appends none. */
  lemma {:induction false} OneLogPerAttempt(live: bool, data: seq<BulkRow>, worlds: nat -> SendWorld, n: nat)
    requires n <= |data|
    ensures |BulkLogs(live, data, worlds, n)| == if live then n else 0
    ensures live ==> forall i :: 0 <= i < n ==>
      var e := BulkLogs(live, data, worlds, n)[i];
      && e.phoneNumber == data[i].phone_number && e.message == data[i].message
      && e.status == StatusOf(SendOutcome(data[i].phone_number, worlds(i)))
      && e.error == SendOutcome(data[i].phone_number, worlds(i))
  {
    if n > 0 {
      OneLogPerAttempt(live, data, worlds, n - 1);
      var prev := BulkLogs(live, data, worlds, n - 1);
      var item := ItemLogs(live, data[n - 1], worlds(n - 1));
      assert BulkLogs(live, data, worlds, n) == prev + item;
      if live {
        assert item[0] == LogFor(data[n - 1].phone_number, data[n - 1].message, worlds(n - 1),
                                 SendOutcome(data[n - 1].phone_number, worlds(n - 1)));
        assert forall i :: 0 <= i < n - 1 ==> (prev + item)[i] == prev[i];
      }
    }
  }

  predicate IsProgress(e: Event) {
    e.BulkProgress?
  }

  /** The progress events among `events`, in order. */
  function Progresses(events: seq<Event>): seq<Event> {
    Filter(events, IsProgress)
  }

  /** The progress event of item `k` (from 0) of a run over `data`. */
  function ProgressOf(live: bool, data: seq<BulkRow>, worlds: nat -> SendWorld, k: nat): Event
    requires k < |data|
  {
    BulkProgress(k + 1, |data|, data[k].phone_number, StatusOf(ItemOutcome(live, data[k], worlds(k))))
  }

  /** The run emits one progress event per attempted item, in item order: the `k`-th carries
      `current = k + 1`, `total = |data|`, the item's phone number and the status of its send. */
  lemma {:induction false} ProgressInOrder(live: bool, data: seq<BulkRow>, worlds: nat -> SendWorld, n: nat)
    requires n <= |data|
    ensures |Progresses(BulkEvents(live, data, worlds, n))| == n
    ensures forall k :: 0 <= k < n ==> Progresses(BulkEvents(live, data, worlds, n))[k] == ProgressOf(live, data, worlds, k)
    ensures forall k :: 0 <= k < n ==> Progresses(BulkEvents(live, data, worlds, n))[k].current == k + 1 <= |data|
  {
    if n > 0 {
      ProgressInOrder(live, data, worlds, n - 1);
      var before := BulkEvents(live, data, worlds, n - 1);
      var e := ItemEvents(live, n - 1, |data|, data[n - 1], worlds(n - 1));
      var progress := ProgressOf(live, data, worlds, n - 1);
      assert BulkEvents(live, data, worlds, n) == before + e;
      FilterAppend(before, e, IsProgress);
      if live {
        var sent := SendEvent(data[n - 1].phone_number, ItemOutcome(live, data[n - 1], worlds(n - 1)));
        assert e == [sent] + [progress];
        FilterAppend([sent], [progress], IsProgress);
        assert Filter([sent], IsProgress) == [];
        assert Filter([progress], IsProgress) == [progress];
      } else {
        assert e == [progress];
        assert Filter([progress], IsProgress) == [progress];
      }
      assert Progresses(e) == [progress];
    }
  }

  /** Two items, the first delivered and the second failing because no composer appears: one
      success, one failure, two log records, the second with the composer error. */
  lemma ScenarioOneSentOneComposerMissing(data: seq<BulkRow>, worlds: nat -> SendWorld)
    requires |data| == 2
    requires SendOutcome(data[0].phone_number, worlds(0)).None?
    requires worlds(1).navigate(ChatUrl(data[1].phone_number)).None?
    requires forall t, s :: !worlds(1).composer(t, s)
    ensures SuccessCount(true, data, worlds, 2) == 1
    ensures FailedCount(true, data, worlds, 2) == 1
    ensures |BulkLogs(true, data, worlds, 2)| == 2
    ensures BulkLogs(true, data, worlds, 2)[1].error == Some(ComposerNotFound(data[1].phone_number))
  {
    ComposerMissingOutcome(data[1].phone_number, worlds(1));
    assert SuccessCount(true, data, worlds, 0) == 0 && FailedCount(true, data, worlds, 0) == 0;
    assert SuccessCount(true, data, worlds, 1) == 1 && FailedCount(true, data, worlds, 1) == 0;
    OneLogPerAttempt(true, data, worlds, 2);
  }
}
