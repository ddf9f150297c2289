/** The `WhatsAppService` class of the main process: the browser session, the
    per-message send protocol, the bulk run with its cancellation flag, and the
    log store. What the browser and the file system answer comes in as
    parameters (`StartWorld`, `SendWorld`, disk flags); what the service sends to
    the renderer window is appended to `events`. */
module Service {
  import opened Common
  import opened Text
  import opened Probe
  import opened Delivery

  /** The step of `start` that throws before authentication is probed, if any:
      `puppeteer.launch`, `browser.newPage`, or `setUserAgent`/`goto` on the new page. */
  datatype SetupFailure =
    | NoFailure
    | LaunchFailed(message: string)
    | NewPageFailed(message: string)
    | PageSetupFailed(message: string)

  /** What the browser does during one `start` call: how set-up ends, and the answers of the
      side-panel probe (by round) and of the single QR-code probe. */
  datatype StartWorld = StartWorld(setup: SetupFailure, sidePanel: Oracle, qr: Selector -> bool)

  /** The outcome of `start`: `None` when `whatsapp:ready` is sent, otherwise the message of
      the error it throws (and reports as `service:error`). */
  function StartOutcome(w: StartWorld): Option<string> {
    if !w.setup.NoFailure? then Some(w.setup.message)
    else if FirstHit(SidePanelSelectors, w.sidePanel, 0, QuickRounds + MaxAttempts).None? then Some(AuthTimeout)
    else None
  }

  /** `start` reports ready exactly when set-up succeeded and some side-panel selector matched in
      one of the 5 + 120 probe rounds; it fails with the timeout error exactly when set-up
      succeeded and no selector matched in any of them. */
  lemma StartReadyIff(w: StartWorld)
    ensures StartOutcome(w).None? <==>
      w.setup.NoFailure? &&
      exists t, j :: 0 <= t < QuickRounds + MaxAttempts && 0 <= j < |SidePanelSelectors| && w.sidePanel(t, SidePanelSelectors[j])
    ensures w.setup.NoFailure? ==> (StartOutcome(w) == Some(AuthTimeout) <==>
      forall t, j :: 0 <= t < QuickRounds + MaxAttempts && 0 <= j < |SidePanelSelectors| ==> !w.sidePanel(t, SidePanelSelectors[j]))
  {
    FirstHitSpec(SidePanelSelectors, w.sidePanel, 0, QuickRounds + MaxAttempts);
    var hit := FirstHit(SidePanelSelectors, w.sidePanel, 0, QuickRounds + MaxAttempts);
    if hit.Some? {
      assert w.sidePanel(hit.value.round, SidePanelSelectors[hit.value.index]);
    }
  }

  /** Whether a QR code was seen changes nothing about the outcome of `start`. `StartOutcome` does
      not read `qr`, so this holds by definition; the proof that the code behaves so is
      `PollAuthentication`, whose `authenticated` is stated without `qr`, together with
      `Start`'s `err == StartOutcome(w)`. */
  lemma StartIgnoresQrCode(w: StartWorld, qr: Selector -> bool)
    ensures StartOutcome(w.(qr := qr)) == StartOutcome(w)
  {
  }

  /** The send protocol in the `try` block of `sendSingleMessage`, once the guard has passed:
      navigate, probe for the composer, insert (clipboard first, `execCommand` as fallback) and
      check the text, press Enter and check the box is empty. */
  method SendProtocol(phoneNumber: string, w: SendWorld) returns (err: Option<string>)
    ensures err == SendOutcome(phoneNumber, w)
  {
    var cleanPhone := CleanPhoneNumber(phoneNumber);
    var navigation := w.navigate(ChatUrlPrefix + cleanPhone);
    if navigation.Some? {
      return navigation;
    }
    var messageBox, waits := ProbeComposer(w.composer);
    if messageBox.None? {
      return Some(ComposerNotFound(phoneNumber));
    }
    var strategy := if w.clipboardOk then Clipboard else ExecCommand;
    var finalText := Trim(w.textAfterInsert(strategy));
    if finalText == [] {
      return Some(PasteFailed);
    }
    var afterSendText := Trim(w.textAfterEnter);
    if afterSendText != [] {
      return Some(NotSent);
    }
    return None;
  }

  class WhatsAppService {
    /** Whether `browser` and `page` hold a live Puppeteer object (rather than `null`). */
    var browser: bool
    var page: bool
    var logs: seq<MessageLog>
    var isBulkProcessing: bool
    /** Everything sent to the renderer window, oldest first. */
    var events: seq<Event>
    /** What this service last wrote to `logs.json`; `None` until the first successful write. */
    var saved: Option<seq<MessageLog>>

    /** A page is only ever held together with its browser; every method keeps it. */
    ghost predicate Valid()
      reads this
    {
      page ==> browser
    }

    /** `new WhatsAppService(mainWindow)`, which runs `loadLogs`: `stored` is the parsed content
        of `logs.json`, `None` when the file is missing or unreadable. */
    constructor(stored: Option<seq<MessageLog>>)
      ensures Valid()
      ensures !browser && !page && !isBulkProcessing
      ensures logs == stored.GetOr([]) && events == [] && saved == None
    {
      browser, page, isBulkProcessing := false, false, false;
      logs := stored.GetOr([]);
      events, saved := [], None;
    }

    /** `saveLogs`: the whole list is written when the write succeeds; a failure is swallowed. */
    method SaveLogs(diskOk: bool)
      requires Valid()
      modifies this
      ensures Valid()
      ensures saved == if diskOk then Some(logs) else old(saved)
      ensures browser == old(browser) && page == old(page) && logs == old(logs)
      ensures isBulkProcessing == old(isBulkProcessing) && events == old(events)
    {
      if diskOk {
        saved := Some(logs);
      }
    }

    /** `addLog`: one record appended at the end, earlier records untouched, then `saveLogs`. */
    method AddLog(phoneNumber: string, message: string, status: Status, error: Option<string>,
                  timestamp: string, diskOk: bool)
      requires Valid()
      modifies this
      ensures Valid()
      ensures logs == old(logs) + [MessageLog(timestamp, phoneNumber, message, status, error)]
      ensures saved == if diskOk then Some(logs) else old(saved)
      ensures browser == old(browser) && page == old(page)
      ensures isBulkProcessing == old(isBulkProcessing) && events == old(events)
    {
      logs := logs + [MessageLog(timestamp, phoneNumber, message, status, error)];
      SaveLogs(diskOk);
    }

    /** `getLogs`. */
    function GetLogs(): seq<MessageLog>
      reads this
    {
      logs
    }

    /** `clearLogs`: the list is emptied, then saved. */
    method ClearLogs(diskOk: bool)
      requires Valid()
      modifies this
      ensures Valid()
      ensures GetLogs() == []
      ensures saved == if diskOk then Some([]) else old(saved)
      ensures browser == old(browser) && page == old(page)
      ensures isBulkProcessing == old(isBulkProcessing) && events == old(events)
    {
      logs := [];
      SaveLogs(diskOk);
    }

    /** `start`. `err` is the message of the error it rethrows, `None` when it resolves;
        `rounds` is the number of side-panel probe rounds run. `browser` is set once `launch`
        returned and `page` once `newPage` returned; a later failure does not release them. */
    method Start(w: StartWorld) returns (err: Option<string>, rounds: nat)
      requires Valid()
      modifies this
      ensures Valid()
      ensures err == StartOutcome(w)
      ensures events == old(events) + [if err.None? then Ready else ServiceError(err.value)]
      ensures browser == (old(browser) || !w.setup.LaunchFailed?)
      ensures page == (old(page) || !(w.setup.LaunchFailed? || w.setup.NewPageFailed?))
      ensures rounds <= QuickRounds + MaxAttempts
      ensures err.None? ==> rounds == FirstHit(SidePanelSelectors, w.sidePanel, 0, QuickRounds + MaxAttempts).value.round + 1
      ensures w.setup.NoFailure? && err.Some? ==> err == Some(AuthTimeout) && rounds == QuickRounds + MaxAttempts
      ensures !w.setup.NoFailure? ==> err == Some(w.setup.message) && rounds == 0
      ensures logs == old(logs) && isBulkProcessing == old(isBulkProcessing) && saved == old(saved)
    {
      rounds := 0;
      if w.setup.LaunchFailed? {
        err := Some(w.setup.message);
      } else {
        browser := true;
        if w.setup.NewPageFailed? {
          err := Some(w.setup.message);
        } else {
          page := true;
          if w.setup.PageSetupFailed? {
            err := Some(w.setup.message);
          } else {
            var authenticated, needsQRScan;
            authenticated, needsQRScan, rounds := PollAuthentication(w.sidePanel, w.qr);
            err := if authenticated then None else Some(AuthTimeout);
          }
        }
      }
      if err.None? {
        events := events + [Ready];
      } else {
        events := events + [ServiceError(err.value)];
      }
    }

    /** `stop`. `closeError` is the message `browser.close()` throws, if it throws; the flag is
        cleared first in any case. Every call that does not throw sends `whatsapp:stopped`,
        also when there was no browser to close. */
    method Stop(closeError: Option<string>) returns (err: Option<string>)
      requires Valid()
      modifies this
      ensures Valid()
      ensures !isBulkProcessing
      ensures err == if old(browser) then closeError else None
      ensures err.None? ==> !browser && !page && events == old(events) + [Stopped]
      ensures err.Some? ==> browser == old(browser) && page == old(page) && events == old(events)
      ensures logs == old(logs) && saved == old(saved)
    {
      isBulkProcessing := false;
      err := None;
      if browser {
        if closeError.Some? {
          err := closeError;
          return;
        }
        browser := false;
        page := false;
      }
      events := events + [Stopped];
    }

    /** `stopBulk`: only the flag changes. */
    method StopBulk()
      requires Valid()
      modifies this
      ensures Valid()
      ensures !isBulkProcessing
      ensures browser == old(browser) && page == old(page) && logs == old(logs)
      ensures events == old(events) && saved == old(saved)
    {
      isBulkProcessing := false;
    }

    /** `sendSingleMessage`. Without a session it throws at the guard, before the `try`, and
        changes nothing. Otherwise it appends exactly one record and one event for the outcome
        and rethrows the error, if any; the session and the flag do not change. */
    method SendSingleMessage(phoneNumber: string, message: string, w: SendWorld) returns (err: Option<string>)
      requires Valid()
      modifies this
      ensures Valid()
      ensures !(old(page) && old(browser)) ==>
        err == Some(NotRunning) && logs == old(logs) && events == old(events) && saved == old(saved)
      ensures old(page) && old(browser) ==>
        && err == SendOutcome(phoneNumber, w)
        && logs == old(logs) + [LogFor(phoneNumber, message, w, err)]
        && events == old(events) + [SendEvent(phoneNumber, err)]
        && saved == (if w.diskOk then Some(logs) else old(saved))
      ensures browser == old(browser) && page == old(page) && isBulkProcessing == old(isBulkProcessing)
    {
      if !page || !browser {
        return Some(NotRunning);
      }
      err := SendProtocol(phoneNumber, w);
      var status := if err.None? then Success else Failed;
      AddLog(phoneNumber, message, status, err, w.timestamp, w.diskOk);
      events := events + [SendEvent(phoneNumber, err)];
    }

    /** The `try`/`catch` around one bulk item (number `i`, from 0): `sendSingleMessage`, then the
        progress event with `current = i + 1` and the item's status. */
    method SendItem(i: nat, total: nat, row: BulkRow, w: SendWorld) returns (err: Option<string>)
      requires Valid()
      modifies this
      ensures Valid()
      ensures ItemDone(old(page) && old(browser), i, total, row, w, old(logs), old(events), old(saved), err, logs, events, saved)
      ensures browser == old(browser) && page == old(page) && isBulkProcessing == old(isBulkProcessing)
    {
      ghost var live, logs0, events0, saved0 := page && browser, logs, events, saved;
      err := SendSingleMessage(row.phone_number, row.message, w);
      ghost var events1 := events;
      var status := if err.None? then Success else Failed;
      events := events + [BulkProgress(i + 1, total, row.phone_number, status)];
      ItemDoneAfterSend(live, i, total, row, w, logs0, events0, saved0, err, logs, events1, saved);
    }

    /** One iteration of the bulk loop past the flag check: item `i` is sent and counted, and the
        run moves from `i` items to `i + 1`. */
    method AttemptItem(data: seq<BulkRow>, worlds: nat -> SendWorld, i: nat, ghost live: bool,
                       ghost logs0: seq<MessageLog>, ghost events0: seq<Event>, ghost saved0: Option<seq<MessageLog>>,
                       successCount: nat, failedCount: nat)
      returns (successCount': nat, failedCount': nat)
      requires i < |data| && live == (page && browser)
      requires BulkSoFar(live, data, worlds, i, logs0, events0, saved0, successCount, failedCount, logs, events, saved)
      requires Valid()
      modifies this
      ensures Valid()
      ensures BulkSoFar(live, data, worlds, i + 1, logs0, events0, saved0, successCount', failedCount', logs, events, saved)
      ensures browser == old(browser) && page == old(page) && isBulkProcessing == old(isBulkProcessing)
    {
      ghost var logs1, events1, saved1 := logs, events, saved;
      var err := SendItem(i, |data|, data[i], worlds(i));
      BulkAdvance(live, data, worlds, i, logs0, events0, saved0, successCount, failedCount,
                  logs1, events1, saved1, err, logs, events, saved);
      successCount' := successCount + if err.None? then 1 else 0;
      failedCount' := failedCount + if err.Some? then 1 else 0;
    }

    /** `sendBulkMessages`. `worlds(i)` is what the browser does while item `i` is sent, and
        `interrupt(i)` whether `stopBulk` ran during the awaits of item `i - 1`.
        The items are attempted in order, the first `Attempted(interrupt, |data|)` of them; each
        attempted item is followed by a pause, returned in `pauses`. */
    method SendBulkMessages(data: seq<BulkRow>, worlds: nat -> SendWorld, interrupt: nat -> bool)
      returns (successCount: nat, failedCount: nat, pauses: seq<int>)
      requires Valid()
      modifies this
      ensures Valid()
      ensures var n := Attempted(interrupt, |data|);
        var live := old(page) && old(browser);
        && successCount == SuccessCount(live, data, worlds, n)
        && failedCount == FailedCount(live, data, worlds, n)
        && successCount + failedCount == n
        && logs == old(logs) + BulkLogs(live, data, worlds, n)
        && events == old(events) + BulkEvents(live, data, worlds, n) + [BulkCompleted(successCount, failedCount, logs)]
        && saved == BulkDisk(live, data, worlds, n, old(logs), old(saved))
        && |pauses| == n
      ensures forall k :: 0 <= k < |pauses| ==> 2000 <= pauses[k] <= 4999
      ensures !isBulkProcessing && browser == old(browser) && page == old(page)
    {
      ghost var live := page && browser;
      ghost var logs0, events0, saved0 := logs, events, saved;
      ghost var n := Attempted(interrupt, |data|);
      isBulkProcessing := true;
      var total := |data|;
      successCount, failedCount, pauses := 0, 0, [];
      var i := 0;
      while i < total
        invariant i <= n && isBulkProcessing
        invariant browser == old(browser) && page == old(page) && live == (page && browser)
        invariant BulkSoFar(live, data, worlds, i, logs0, events0, saved0, successCount, failedCount, logs, events, saved)
        invariant |pauses| == i && forall k :: 0 <= k < i ==> 2000 <= pauses[k] <= 4999
      {
        if i > 0 && interrupt(i) {
          StopBulk();
        }
        if !isBulkProcessing {
          break;
        }
        successCount, failedCount := AttemptItem(data, worlds, i, live, logs0, events0, saved0, successCount, failedCount);
        var delayTime :| 2000 <= delayTime <= 4999;
        pauses := pauses + [delayTime];
        i := i + 1;
      }
      assert i == n;
      CountsAddUp(live, data, worlds, n);
      isBulkProcessing := false;
      events := events + [BulkCompleted(successCount, failedCount, logs)];
    }
  }
}
