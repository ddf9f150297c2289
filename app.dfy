/** `App.handleSendToContacts`: the sequential send loop behind the single-message
    form. Each phone gets one `sendMessage` call through the hook; a failure is
    caught and the loop goes on; a 3-second pause separates consecutive sends. */
module App {
  import opened Common
  import opened Hook

  /** What the loop does, in order: one call of `sendMessage`, or one pause. */
  datatype Action = Send(phone: string, message: string) | Pause(ms: nat)

  /** The pause between two consecutive sends, in milliseconds. */
  const ContactPause: nat := 3000

  /** The actions of the first `i` iterations of the loop over `phones`. */
  function Actions(phones: seq<string>, message: string, i: nat): seq<Action>
    requires i <= |phones|
  {
    if i == 0 then []
    else Actions(phones, message, i - 1) + [Send(phones[i - 1], message)]
         + (if i < |phones| then [Pause(ContactPause)] else [])
  }

  function Schedule(phones: seq<string>, message: string): seq<Action> {
    Actions(phones, message, |phones|)
  }

  lemma {:induction false} ActionsShape(phones: seq<string>, message: string, i: nat)
    requires 0 < i <= |phones|
    ensures |Actions(phones, message, i)| == if i < |phones| then 2 * i else 2 * i - 1
    ensures forall k :: 0 <= k < i ==> Actions(phones, message, i)[2 * k] == Send(phones[k], message)
    ensures forall k :: 0 <= k < i && k < |phones| - 1 ==> Actions(phones, message, i)[2 * k + 1] == Pause(ContactPause)
  {
    if i > 1 {
      ActionsShape(phones, message, i - 1);
    }
  }

  /** The schedule alternates sends and pauses: the phones are sent to once each, in index
      order, with exactly one 3000 ms pause between consecutive sends and none after the last,
      so there are `|phones| - 1` pauses. An empty list gives no action at all. */
  lemma ScheduleShape(phones: seq<string>, message: string)
    ensures phones == [] <==> Schedule(phones, message) == []
    ensures phones != [] ==> |Schedule(phones, message)| == 2 * |phones| - 1
    ensures forall k :: 0 <= k < |phones| ==> Schedule(phones, message)[2 * k] == Send(phones[k], message)
    ensures forall k :: 0 <= k < |phones| - 1 ==> Schedule(phones, message)[2 * k + 1] == Pause(ContactPause)
  {
    if phones != [] {
      ActionsShape(phones, message, |phones|);
    }
  }

  /** The `Send` actions of a schedule. */
  function Sends(trace: seq<Action>): seq<string> {
    if trace == [] then []
    else (if trace[0].Send? then [trace[0].phone] else []) + Sends(trace[1..])
  }

  /** The number of `Pause` actions of a schedule. */
  function Pauses(trace: seq<Action>): nat {
    if trace == [] then 0 else (if trace[0].Pause? then 1 else 0) + Pauses(trace[1..])
  }

  lemma {:induction false} SendsAppend(a: seq<Action>, b: seq<Action>)
    ensures Sends(a + b) == Sends(a) + Sends(b)
  {
    if a == [] {
      assert a + b == b;
    } else {
      assert (a + b)[0] == a[0] && (a + b)[1..] == a[1..] + b;
      SendsAppend(a[1..], b);
    }
  }

  lemma {:induction false} PausesAppend(a: seq<Action>, b: seq<Action>)
    ensures Pauses(a + b) == Pauses(a) + Pauses(b)
  {
    if a == [] {
      assert a + b == b;
    } else {
      assert (a + b)[0] == a[0] && (a + b)[1..] == a[1..] + b;
      PausesAppend(a[1..], b);
    }
  }

  lemma {:induction false} ActionsSends(phones: seq<string>, message: string, i: nat)
    requires i <= |phones|
    ensures Sends(Actions(phones, message, i)) == phones[..i]
  {
    if i > 0 {
      ActionsSends(phones, message, i - 1);
      var before := Actions(phones, message, i - 1);
      var send: seq<Action> := [Send(phones[i - 1], message)];
      var pause: seq<Action> := if i < |phones| then [Pause(ContactPause)] else [];
      assert Actions(phones, message, i) == (before + send) + pause;
      SendsAppend(before, send);
      SendsAppend(before + send, pause);
      assert Sends(send) == [phones[i - 1]];
      assert Sends(pause) == [];
      assert phones[..i] == phones[..i - 1] + [phones[i - 1]];
    }
  }

  lemma {:induction false} ActionsPauses(phones: seq<string>, message: string, i: nat)
    requires i <= |phones|
    ensures Pauses(Actions(phones, message, i)) == if i < |phones| || i == 0 then i else i - 1
  {
    if i > 0 {
      ActionsPauses(phones, message, i - 1);
      var before := Actions(phones, message, i - 1);
      var send: seq<Action> := [Send(phones[i - 1], message)];
      var pause: seq<Action> := if i < |phones| then [Pause(ContactPause)] else [];
      assert Actions(phones, message, i) == (before + send) + pause;
      PausesAppend(before, send);
      PausesAppend(before + send, pause);
      assert Pauses(send) == 0;
      assert Pauses(pause) == if i < |phones| then 1 else 0;
    }
  }

  /** Exactly one `sendMessage` call per phone, in index order, and `|phones| - 1` pauses. */
  lemma ScheduleCounts(phones: seq<string>, message: string)
    ensures Sends(Schedule(phones, message)) == phones
    ensures Pauses(Schedule(phones, message)) == if phones == [] then 0 else |phones| - 1
  {
    ActionsSends(phones, message, |phones|);
    ActionsPauses(phones, message, |phones|);
    assert phones[..|phones|] == phones;
  }

  /** The `sendMessage` calls for `phones`, one per phone in index order. */
  function Calls(phones: seq<string>, message: string): seq<(string, string)> {
    seq(|phones|, k requires 0 <= k < |phones| => (phones[k], message))
  }

  /** `handleSendToContacts(phones, message)`. `replies(i)` is what the main process answers
      for phone `i`. A thrown error is caught, so every phone is attempted; the hook's `error`
      ends up as the last call left it. */
  method HandleSendToContacts(client: ServiceClient, phones: seq<string>, message: string, replies: nat -> Reply)
    returns (trace: seq<Action>)
    modifies client
    ensures trace == Schedule(phones, message)
    ensures client.sent == old(client.sent) + Calls(phones, message)
    ensures client.error == if phones == [] then old(client.error) else ReplyError(replies(|phones| - 1))
    ensures client.isRunning == old(client.isRunning) && client.isProcessing == old(client.isProcessing)
    ensures client.progress == old(client.progress) && client.logs == old(client.logs)
  {
    trace := [];
    var i := 0;
    while i < |phones|
      invariant 0 <= i <= |phones|
      invariant trace == Actions(phones, message, i)
      invariant client.sent == old(client.sent) + Calls(phones[..i], message)
      invariant client.error == if i == 0 then old(client.error) else ReplyError(replies(i - 1))
      invariant client.isRunning == old(client.isRunning) && client.isProcessing == old(client.isProcessing)
      invariant client.progress == old(client.progress) && client.logs == old(client.logs)
    {
      var phone := phones[i];
      var thrown := client.SendMessage(phone, message, replies(i));
      assert Calls(phones[..i + 1], message) == Calls(phones[..i], message) + [(phone, message)];
      trace := trace + [Send(phone, message)];
      if i < |phones| - 1 {
        trace := trace + [Pause(ContactPause)];
      }
      i := i + 1;
    }
    assert phones[..i] == phones;
  }
}
