/** The renderer's view of the service (`useWhatsAppService`): five pieces of
    state, one handler per event the main process sends, and the commands that
    call the main process and interpret its reply. */
module Hook {
  import opened Common
  import opened Delivery

  datatype Progress = Progress(current: nat, total: nat)

  /** What an `ipcRenderer.invoke` call gives back: the handler's `{ success, error }` object,
      or a rejection with an error message. */
  datatype Reply = Replied(success: bool, error: Option<string>) | Rejected(message: string)

  /** JavaScript truthiness of an optional string: present and not empty. */
  predicate Truthy(e: Option<string>) {
    e.Some? && e.value != []
  }

  /** The state the hook returns, as one value. */
  datatype ClientState = ClientState(isRunning: bool, isProcessing: bool, progress: Progress,
                                     logs: seq<MessageLog>, error: Option<string>)

  /** How one event changes the state (the `useEffect` subscriptions). */
  function Apply(s: ClientState, e: Event): ClientState {
    match e
    case Ready => s.(isRunning := true, error := None)
    case Stopped => s.(isRunning := false, isProcessing := false)
    case MessageSent(_) => s
    case MessageFailed(_, error) => s.(error := Some(error))
    case BulkProgress(current, total, _, _) => s.(progress := Progress(current, total))
    case BulkCompleted(_, _, logs) => s.(logs := logs, isProcessing := false, progress := Progress(0, 0))
    case ServiceError(errorMessage) => s.(error := Some(errorMessage))
  }

  /** The state after a sequence of events, delivered in order. */
  function ApplyAll(s: ClientState, es: seq<Event>): ClientState
    decreases |es|
  {
    if es == [] then s else ApplyAll(Apply(s, es[0]), es[1..])
  }

  lemma {:induction false} ApplyAllAppend(s: ClientState, a: seq<Event>, b: seq<Event>)
    ensures ApplyAll(s, a + b) == ApplyAll(ApplyAll(s, a), b)
    decreases |a|
  {
    if a == [] {
      assert a + b == b;
    } else {
      assert (a + b)[0] == a[0] && (a + b)[1..] == a[1..] + b;
      ApplyAllAppend(Apply(s, a[0]), a[1..], b);
    }
  }

  /** The events of one attempted bulk item change only `progress` and `error`; `progress`
      becomes the item's `(i + 1, total)`. */
  lemma ItemEventsView(s: ClientState, live: bool, i: nat, total: nat, row: BulkRow, w: SendWorld)
    ensures var t := ApplyAll(s, ItemEvents(live, i, total, row, w));
      && t.progress == Progress(i + 1, total)
      && t.isRunning == s.isRunning && t.isProcessing == s.isProcessing && t.logs == s.logs
  {
    var es := ItemEvents(live, i, total, row, w);
    var last := es[|es| - 1];
    assert last.BulkProgress? && last.current == i + 1 && last.total == total;
    assert ApplyAll(Apply(s, last), []) == Apply(s, last);
    if live {
      var s1 := Apply(s, es[0]);
      assert es[1..] == [last] && [last][1..] == [];
      assert ApplyAll(s, es) == ApplyAll(s1, [last]);
      assert ApplyAll(s1, [last]) == Apply(s1, last);
    } else {
      assert es == [last] && es[1..] == [];
      assert ApplyAll(s, es) == Apply(s, last);
    }
  }

  /** While a bulk run is in progress, the renderer shows the number of the last attempted item
      and the total; the run does not touch `isRunning`, `isProcessing` or `logs`. */
  lemma {:induction false} BulkEventsView(s: ClientState, live: bool, data: seq<BulkRow>, worlds: nat -> SendWorld, n: nat)
    requires n <= |data|
    ensures var t := ApplyAll(s, BulkEvents(live, data, worlds, n));
      && t.progress == (if n == 0 then s.progress else Progress(n, |data|))
      && t.isRunning == s.isRunning && t.isProcessing == s.isProcessing && t.logs == s.logs
  {
    if n > 0 {
      var before := BulkEvents(live, data, worlds, n - 1);
      var item := ItemEvents(live, n - 1, |data|, data[n - 1], worlds(n - 1));
      assert BulkEvents(live, data, worlds, n) == before + item;
      BulkEventsView(s, live, data, worlds, n - 1);
      ApplyAllAppend(s, before, item);
      ItemEventsView(ApplyAll(s, before), live, n - 1, |data|, data[n - 1], worlds(n - 1));
    }
  }

  /** Once the completion event of a bulk run has arrived, the renderer is no longer processing,
      its progress is reset, and it holds the logs the event carried; whether the service is
      running is what it was before the run. */
  lemma BulkRunView(s: ClientState, live: bool, data: seq<BulkRow>, worlds: nat -> SendWorld, n: nat,
                    successCount: nat, failedCount: nat, logs: seq<MessageLog>)
    requires n <= |data|
    ensures var t := ApplyAll(s, BulkEvents(live, data, worlds, n) + [BulkCompleted(successCount, failedCount, logs)]);
      && !t.isProcessing && t.progress == Progress(0, 0) && t.logs == logs && t.isRunning == s.isRunning
  {
    BulkEventsView(s, live, data, worlds, n);
    ApplyAllAppend(s, BulkEvents(live, data, worlds, n), [BulkCompleted(successCount, failedCount, logs)]);
  }

  /** The error an unsuccessful reply or a rejection leaves in `error`, if any. */
  function ReplyError(reply: Reply): Option<string> {
    match reply
    case Replied(success, error) => if !success && Truthy(error) then error else None
    case Rejected(message) => Some(message)
  }

  class ServiceClient {
    var isRunning: bool
    var isProcessing: bool
    var progress: Progress
    var logs: seq<MessageLog>
    var error: Option<string>
    /** The `(phone, message)` pairs handed to `sendMessage` so far, oldest first. */
    ghost var sent: seq<(string, string)>

    function State(): ClientState
      reads this
    {
      ClientState(isRunning, isProcessing, progress, logs, error)
    }

    /** The initial values of the `useState` calls. */
    constructor()
      ensures State() == ClientState(false, false, Progress(0, 0), [], None) && sent == []
    {
      isRunning, isProcessing, progress, logs, error := false, false, Progress(0, 0), [], None;
      sent := [];
    }

    /** `onReady`. */
    method OnReady()
      modifies this
      ensures sent == old(sent)
      ensures isRunning && error == None
      ensures isProcessing == old(isProcessing) && progress == old(progress) && logs == old(logs)
    {
      isRunning := true;
      error := None;
    }

    /** `onStopped`. */
    method OnStopped()
      modifies this
      ensures sent == old(sent)
      ensures !isRunning && !isProcessing
      ensures progress == old(progress) && logs == old(logs) && error == old(error)
    {
      isRunning := false;
      isProcessing := false;
    }

    /** `onMessageFailed`. */
    method OnMessageFailed(failure: string)
      modifies this
      ensures sent == old(sent)
      ensures error == Some(failure)
      ensures isRunning == old(isRunning) && isProcessing == old(isProcessing)
      ensures progress == old(progress) && logs == old(logs)
    {
      error := Some(failure);
    }

    /** `onBulkProgress`. */
    method OnBulkProgress(current: nat, total: nat)
      modifies this
      ensures sent == old(sent)
      ensures progress == Progress(current, total)
      ensures isRunning == old(isRunning) && isProcessing == old(isProcessing)
      ensures logs == old(logs) && error == old(error)
    {
      progress := Progress(current, total);
    }

    /** `onBulkCompleted` (the summary alert is not modelled). */
    method OnBulkCompleted(completedLogs: seq<MessageLog>)
      modifies this
      ensures sent == old(sent)
      ensures logs == completedLogs && !isProcessing && progress == Progress(0, 0)
      ensures isRunning == old(isRunning) && error == old(error)
    {
      logs := completedLogs;
      isProcessing := false;
      progress := Progress(0, 0);
    }

    /** `onServiceError`. */
    method OnServiceError(errorMessage: string)
      modifies this
      ensures sent == old(sent)
      ensures error == Some(errorMessage)
      ensures isRunning == old(isRunning) && isProcessing == old(isProcessing)
      ensures progress == old(progress) && logs == old(logs)
    {
      error := Some(errorMessage);
    }

    /** Delivery of one event to the subscribed handler. */
    method Dispatch(e: Event)
      modifies this
      ensures sent == old(sent)
      ensures State() == Apply(old(State()), e)
    {
      match e
      case Ready => OnReady();
      case Stopped => OnStopped();
      case MessageSent(_) =>
      case MessageFailed(_, failure) => OnMessageFailed(failure);
      case BulkProgress(current, total, _, _) => OnBulkProgress(current, total);
      case BulkCompleted(_, _, completedLogs) => OnBulkCompleted(completedLogs);
      case ServiceError(errorMessage) => OnServiceError(errorMessage);
    }

    /** `startService`: the error is cleared, then set from an unsuccessful reply that carries
        one, or from the rejection. */
    method StartService(reply: Reply)
      modifies this
      ensures sent == old(sent)
      ensures error == ReplyError(reply)
      ensures isRunning == old(isRunning) && isProcessing == old(isProcessing)
      ensures progress == old(progress) && logs == old(logs)
    {
      error := None;
      match reply
      case Replied(success, replyError) =>
        if !success && Truthy(replyError) {
          error := replyError;
        }
      case Rejected(message) =>
        error := Some(message);
    }

    /** `stopService`: only a rejection changes anything; an unsuccessful reply is ignored. */
    method StopService(reply: Reply)
      modifies this
      ensures sent == old(sent)
      ensures error == if reply.Rejected? then Some(reply.message) else old(error)
      ensures isRunning == old(isRunning) && isProcessing == old(isProcessing)
      ensures progress == old(progress) && logs == old(logs)
    {
      if reply.Rejected? {
        error := Some(reply.message);
      }
    }

    /** `sendMessage`: the error is cleared; an unsuccessful reply with an error, or a
        rejection, sets it and is rethrown (`thrown`). An unsuccessful reply without an error
        resolves normally. */
    method SendMessage(phone: string, message: string, reply: Reply) returns (thrown: Option<string>)
      modifies this
      ensures thrown == ReplyError(reply) && error == thrown
      ensures sent == old(sent) + [(phone, message)]
      ensures isRunning == old(isRunning) && isProcessing == old(isProcessing)
      ensures progress == old(progress) && logs == old(logs)
    {
      sent := sent + [(phone, message)];
      error := None;
      thrown := None;
      match reply
      case Replied(success, replyError) =>
        if !success && Truthy(replyError) {
          error := replyError;
          thrown := replyError;
        }
      case Rejected(m) =>
        error := Some(m);
        thrown := Some(m);
    }

    /** `startBulk`: processing starts at `(0, |data|)` with no error; an unsuccessful reply with
        an error, or a rejection, sets the error and ends processing. */
    method StartBulk(data: seq<BulkRow>, reply: Reply)
      modifies this
      ensures sent == old(sent)
      ensures progress == Progress(0, |data|)
      ensures error == ReplyError(reply)
      ensures isProcessing == ReplyError(reply).None?
      ensures isRunning == old(isRunning) && logs == old(logs)
    {
      isProcessing := true;
      progress := Progress(0, |data|);
      error := None;
      match reply
      case Replied(success, replyError) =>
        if !success && Truthy(replyError) {
          error := replyError;
          isProcessing := false;
        }
      case Rejected(m) =>
        error := Some(m);
        isProcessing := false;
    }

    /** `stopBulk`: after the call returns, processing has ended and progress is reset; a
        rejection propagates before any state changes. */
    method StopBulk(reply: Reply) returns (thrown: Option<string>)
      modifies this
      ensures sent == old(sent)
      ensures thrown == if reply.Rejected? then Some(reply.message) else None
      ensures thrown.None? ==> !isProcessing && progress == Progress(0, 0)
      ensures thrown.Some? ==> isProcessing == old(isProcessing) && progress == old(progress)
      ensures isRunning == old(isRunning) && logs == old(logs) && error == old(error)
    {
      if reply.Rejected? {
        return Some(reply.message);
      }
      isProcessing := false;
      progress := Progress(0, 0);
      thrown := None;
    }
  }
}
