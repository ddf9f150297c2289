/** Probing the page for one of an ordered list of CSS selectors, round after
    round, as `WhatsAppService.start` does for the side panel and
    `sendSingleMessage` does for the composer. The browser is an oracle: the
    answer of `page.$(selector)` during a given probe round. A query that throws
    is caught by the source and treated like no match, so the oracle answers
    `false` for it. */
module Probe {
  import opened Common

  type Selector = string

  /** `matches(round, selector)`: the page has an element for `selector` when probed in `round`. */
  type Oracle = (nat, Selector) -> bool

  /** Where a probe succeeded: the round and the index of the first matching selector. */
  datatype Hit = Hit(round: nat, index: nat)

  /** Markers of a logged-in session (the chat side panel). */
  const SidePanelSelectors: seq<Selector> := [
    "#side",
    "[data-testid=\"chat-list\"]",
    "div[aria-label*=\"Chat list\"]",
    "[data-testid=\"chatlist-header\"]",
    "#pane-side",
    "div._amid"
  ]

  /** Markers of a pending QR-code login. */
  const QrCodeSelectors: seq<Selector> := [
    "canvas[aria-label*=\"Scan\"]",
    "canvas[aria-label*=\"QR\"]",
    "div[data-ref]"
  ]

  /** Candidate signatures of the message composer, in priority order. */
  const MessageBoxSelectors: seq<Selector> := [
    "div[contenteditable=\"true\"][data-tab=\"10\"]",
    "div[contenteditable=\"true\"][data-tab=\"6\"]",
    "footer div[contenteditable=\"true\"]",
    "div[contenteditable=\"true\"][role=\"textbox\"]",
    "[data-testid=\"conversation-compose-box-input\"]",
    "div[title=\"Type a message\"]"
  ]

  /** Quick session checks before the QR probe. */
  const QuickRounds: nat := 5
  /** Polling attempts after the QR probe (`maxAttempts`). */
  const MaxAttempts: nat := 120
  /** Rounds of composer probing. */
  const ComposerRounds: nat := 20

  /** The first selector at index `k` or later that matches in `round`. */
  function FirstInRound(sels: seq<Selector>, matches: Oracle, round: nat, k: nat): (r: Option<nat>)
    requires k <= |sels|
    ensures r.Some? ==> k <= r.value < |sels| && matches(round, sels[r.value])
    ensures r.Some? ==> forall j :: k <= j < r.value ==> !matches(round, sels[j])
    ensures r.None? ==> forall j :: k <= j < |sels| ==> !matches(round, sels[j])
    decreases |sels| - k
  {
    if k == |sels| then None
    else if matches(round, sels[k]) then Some(k)
    else FirstInRound(sels, matches, round, k + 1)
  }

  /** The first round in `[from, limit)` in which some selector matches, with the first
      selector that matches in it. */
  function FirstHit(sels: seq<Selector>, matches: Oracle, from: nat, limit: nat): (r: Option<Hit>)
    ensures r.Some? ==> from <= r.value.round < limit && r.value.index < |sels|
    decreases limit - from
  {
    if from >= limit then None
    else match FirstInRound(sels, matches, from, 0)
      case Some(k) => Some(Hit(from, k))
      case None => FirstHit(sels, matches, from + 1, limit)
  }

  /** What `FirstHit` finds: a match, no match at an earlier selector of the same round, and no
      match in any earlier round; and when it finds nothing, no round of the interval matches. */
  lemma {:induction false} FirstHitSpec(sels: seq<Selector>, matches: Oracle, from: nat, limit: nat)
    ensures var r := FirstHit(sels, matches, from, limit);
      && (r.Some? ==> matches(r.value.round, sels[r.value.index]))
      && (r.Some? ==> forall j :: 0 <= j < r.value.index ==> !matches(r.value.round, sels[j]))
      && (r.Some? ==> forall t, j :: from <= t < r.value.round && 0 <= j < |sels| ==> !matches(t, sels[j]))
      && (r.None? ==> forall t, j :: from <= t < limit && 0 <= j < |sels| ==> !matches(t, sels[j]))
    decreases limit - from
  {
    if from < limit && FirstInRound(sels, matches, from, 0).None? {
      FirstHitSpec(sels, matches, from + 1, limit);
    }
  }

  /** Whether some round in `[from, limit)` has a match is decided by the earlier part of an
      interval first: a search over `[from, limit)` finds the same hit as one over `[from, mid)`
      when that has one, and as one over `[mid, limit)` otherwise. */
  lemma {:induction false} FirstHitSplit(sels: seq<Selector>, matches: Oracle, from: nat, mid: nat, limit: nat)
    requires from <= mid <= limit
    ensures FirstHit(sels, matches, from, limit) ==
            if FirstHit(sels, matches, from, mid).Some? then FirstHit(sels, matches, from, mid)
            else FirstHit(sels, matches, mid, limit)
    decreases mid - from
  {
    if from < mid {
      FirstHitSplit(sels, matches, from + 1, mid, limit);
    }
  }

  /** A page on which no selector ever matches gives no hit. */
  lemma {:induction false} FirstHitNever(sels: seq<Selector>, matches: Oracle, from: nat, limit: nat)
    requires forall t, s :: !matches(t, s)
    ensures FirstHit(sels, matches, from, limit).None?
    decreases limit - from
  {
    if from < limit {
      FirstHitNever(sels, matches, from + 1, limit);
    }
  }

  /** One round of a bounded search: a hit in round `from` ends it, otherwise it goes on. */
  lemma FirstHitStep(sels: seq<Selector>, matches: Oracle, from: nat, limit: nat)
    requires from < limit
    ensures FirstHit(sels, matches, from, limit) ==
            match FirstInRound(sels, matches, from, 0)
            case Some(k) => Some(Hit(from, k))
            case None => FirstHit(sels, matches, from + 1, limit)
  {
  }

  /** One pass over `sels` in list order, stopping at the first match
      (the `for (const selector of ...)` loops with `break`). */
  method ProbeSelectors(sels: seq<Selector>, matches: Oracle, round: nat) returns (found: Option<nat>)
    ensures found == FirstInRound(sels, matches, round, 0)
  {
    found := None;
    var k := 0;
    while k < |sels|
      invariant 0 <= k <= |sels|
      invariant FirstInRound(sels, matches, round, 0) == FirstInRound(sels, matches, round, k)
    {
      if matches(round, sels[k]) {
        found := Some(k);
        return;
      }
      k := k + 1;
    }
  }

  /** The composer search of `sendSingleMessage`: up to 20 rounds over `MessageBoxSelectors`,
      with a one-second wait after every round that found nothing. `waits` counts those waits. */
  method ProbeComposer(matches: Oracle) returns (hit: Option<Hit>, waits: nat)
    ensures hit == FirstHit(MessageBoxSelectors, matches, 0, ComposerRounds)
    ensures hit.Some? ==> hit.value.round < ComposerRounds && waits == hit.value.round
    ensures hit.None? ==> waits == ComposerRounds
  {
    hit, waits := None, 0;
    var attempt := 0;
    while attempt < ComposerRounds
      invariant 0 <= attempt <= ComposerRounds && waits == attempt
      invariant FirstHit(MessageBoxSelectors, matches, 0, ComposerRounds)
             == FirstHit(MessageBoxSelectors, matches, attempt, ComposerRounds)
    {
      FirstHitSplit(MessageBoxSelectors, matches, 0, attempt, ComposerRounds);
      var found := ProbeSelectors(MessageBoxSelectors, matches, attempt);
      if found.Some? {
        hit := Some(Hit(attempt, found.value));
        return;
      }
      waits := waits + 1;
      attempt := attempt + 1;
    }
  }

  /** The quick session check of `start`: `for (let i = 0; i < 5 && !authenticated; i++)`
      over `SidePanelSelectors`. `rounds` is the number of rounds probed. */
  method QuickSessionCheck(sidePanel: Oracle) returns (authenticated: bool, rounds: nat)
    ensures authenticated == FirstHit(SidePanelSelectors, sidePanel, 0, QuickRounds).Some?
    ensures authenticated ==> rounds == FirstHit(SidePanelSelectors, sidePanel, 0, QuickRounds).value.round + 1
    ensures !authenticated ==> rounds == QuickRounds
  {
    ghost var quick := FirstHit(SidePanelSelectors, sidePanel, 0, QuickRounds);
    authenticated := false;
    rounds := 0;
    while rounds < QuickRounds && !authenticated
      invariant 0 <= rounds <= QuickRounds
      invariant !authenticated ==> quick == FirstHit(SidePanelSelectors, sidePanel, rounds, QuickRounds)
      invariant authenticated ==> quick.Some? && quick.value.round + 1 == rounds
    {
      FirstHitSplit(SidePanelSelectors, sidePanel, 0, rounds, QuickRounds);
      var found := ProbeSelectors(SidePanelSelectors, sidePanel, rounds);
      if found.Some? {
        authenticated := true;
      }
      rounds := rounds + 1;
    }
  }

  /** The polling loop of `start`: `while (!authenticated && attempts < maxAttempts)`, probing
      round `QuickRounds + attempts` and counting an attempt only when it found nothing.
      `start` runs it on `SidePanelSelectors` with `maxAttempts == MaxAttempts`. */
  method WaitForLogin(sels: seq<Selector>, sidePanel: Oracle, maxAttempts: nat) returns (authenticated: bool, attempts: nat)
    ensures authenticated == FirstHit(sels, sidePanel, QuickRounds, QuickRounds + maxAttempts).Some?
    ensures authenticated ==> QuickRounds + attempts == FirstHit(sels, sidePanel, QuickRounds, QuickRounds + maxAttempts).value.round
    ensures !authenticated ==> attempts == maxAttempts
  {
    ghost var limit := QuickRounds + maxAttempts;
    ghost var poll := FirstHit(sels, sidePanel, QuickRounds, limit);
    authenticated := false;
    attempts := 0;
    while !authenticated && attempts < maxAttempts
      invariant 0 <= attempts <= maxAttempts
      invariant !authenticated ==> poll == FirstHit(sels, sidePanel, QuickRounds + attempts, limit)
      invariant authenticated ==> poll.Some? && poll.value.round == QuickRounds + attempts
    {
      var round := QuickRounds + attempts;
      var found := ProbeSelectors(sels, sidePanel, round);
      FirstHitStep(sels, sidePanel, round, limit);
      if found.Some? {
        assert poll == Some(Hit(round, found.value));
        authenticated := true;
      } else {
        attempts := attempts + 1;
        assert poll == FirstHit(sels, sidePanel, QuickRounds + attempts, limit);
      }
    }
  }

  /** The authentication detection of `start`: the quick check, then (only if it failed) one
      probe of `QrCodeSelectors`, then the polling loop. Rounds are counted on one clock, quick
      rounds first, so the whole search is one `FirstHit` over 5 + 120 rounds. `rounds` is the
      number of side-panel rounds probed. The QR answer is reported in `needsQRScan` and does
      not influence `authenticated` or `rounds`. */
  method PollAuthentication(sidePanel: Oracle, qr: Selector -> bool)
    returns (authenticated: bool, needsQRScan: bool, rounds: nat)
    ensures authenticated == FirstHit(SidePanelSelectors, sidePanel, 0, QuickRounds + MaxAttempts).Some?
    ensures authenticated ==> rounds == FirstHit(SidePanelSelectors, sidePanel, 0, QuickRounds + MaxAttempts).value.round + 1
    ensures !authenticated ==> rounds == QuickRounds + MaxAttempts
    ensures needsQRScan <==> FirstHit(SidePanelSelectors, sidePanel, 0, QuickRounds).None?
                             && exists j :: 0 <= j < |QrCodeSelectors| && qr(QrCodeSelectors[j])
  {
    FirstHitSplit(SidePanelSelectors, sidePanel, 0, QuickRounds, QuickRounds + MaxAttempts);
    authenticated, rounds := QuickSessionCheck(sidePanel);
    needsQRScan := false;
    if !authenticated {
      var found := ProbeSelectors(QrCodeSelectors, (_: nat, s: Selector) => qr(s), 0);
      needsQRScan := found.Some?;
      var attempts;
      authenticated, attempts := WaitForLogin(SidePanelSelectors, sidePanel, MaxAttempts);
      rounds := if authenticated then rounds + attempts + 1 else rounds + attempts;
    }
  }
}
