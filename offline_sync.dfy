/** The offline action queue (`saveOfflineAction`), the replay pass that drains it
    (`syncOfflineActions`), and the voice choice of `speak`. */
module OfflineSync {
  import opened Js
  import opened Browser

  // ---------------------------------------------------------------------------
  // The queue store

  /** The entries a reader of the queue sees: an absent entry reads as `[]`. */
  function Pending(slot: QueueSlot): seq<Action>
  {
    if slot.Stored? then slot.entries else []
  }

  /** The queue entry after `saveOfflineAction` tried to append `a`. Unreadable storage
      makes the parse (or `push` on a non-array) throw, and a failed `setItem` leaves the
      old text; both errors are caught, so the caller never sees them. */
  function Enqueued(slot: QueueSlot, a: Action, writeFails: bool): (r: QueueSlot)
    ensures Pending(slot) <= Pending(r)
    ensures r.Unreadable? <==> slot.Unreadable?
    ensures |Pending(r)| <= |Pending(slot)| + 1
  {
    if slot.Unreadable? || writeFails then slot else Stored(Pending(slot) + [a])
  }

  /** `saveOfflineAction(url, method, body)`; the id and the timestamp, made from the clock
      and `Math.random` in the source, are parameters here, and so is whether the write fails. */
  method SaveOfflineAction(d: Device, url: string, httpMethod: string, body: Json,
                           id: string, timestamp: string, writeFails: bool)
    modifies d`queueSlot
    ensures d.queueSlot == Enqueued(old(d.queueSlot), Action(id, url, httpMethod, body, timestamp), writeFails)
    ensures !old(d.queueSlot).Unreadable? && !writeFails ==>
              Pending(d.queueSlot) == Pending(old(d.queueSlot)) + [Action(id, url, httpMethod, body, timestamp)]
  {
    if d.queueSlot.Unreadable? {
      return;
    }
    var queue := Pending(d.queueSlot);
    var action := Action(id, url, httpMethod, body, timestamp);
    queue := queue + [action];
    if !writeFails {
      d.queueSlot := Stored(queue);
    }
  }

  /** The queue entry after every action of `actions` was saved in turn, each write succeeding. */
  function EnqueueAll(slot: QueueSlot, actions: seq<Action>): QueueSlot
  {
    if actions == [] then slot
    else Enqueued(EnqueueAll(slot, actions[..|actions| - 1]), actions[|actions| - 1], false)
  }

  /** First in, first out: successive saves append in call order, and nothing queued before is touched. */
  lemma {:induction false} EnqueueAllIsFifo(slot: QueueSlot, actions: seq<Action>)
    requires !slot.Unreadable?
    ensures Pending(EnqueueAll(slot, actions)) == Pending(slot) + actions
    ensures EnqueueAll(slot, actions).Stored? || actions == []
  {
    if actions != [] {
      var init := actions[..|actions| - 1];
      EnqueueAllIsFifo(slot, init);
      assert init + [actions[|actions| - 1]] == actions;
    }
  }

  // ---------------------------------------------------------------------------
  // The replay pass

  /** What the pass does with one entry, given what its request came back with. */
  datatype Fate = Synced | Kept | Dropped

  /** An ok response is synced; a thrown error or a status of 500 or more is kept for
      retry; any other response (4xx, and whatever else is not ok) is dropped. */
  function FateOf(o: Outcome): (f: Fate)
    ensures f == Synced <==> IsOk(o)
    ensures f == Kept <==> o.NetworkError? || 500 <= o.status
    ensures f == Dropped <==> o.Response? && !IsOk(o) && o.status < 500
  {
    if IsOk(o) then Synced
    else if o.NetworkError? || o.status >= 500 then Kept
    else Dropped
  }

  /** The entries kept by a pass, in queue order. */
  function Retained(q: seq<Action>, outcomes: seq<Outcome>): seq<Action>
    requires |outcomes| == |q|
  {
    if q == [] then []
    else Retained(q[..|q| - 1], outcomes[..|q| - 1]) +
         (if FateOf(outcomes[|q| - 1]) == Kept then [q[|q| - 1]] else [])
  }

  /** The positions whose outcome keeps the entry, in increasing order. */
  function KeptIndices(outcomes: seq<Outcome>): seq<nat>
  {
    if outcomes == [] then []
    else KeptIndices(outcomes[..|outcomes| - 1]) +
         (if FateOf(outcomes[|outcomes| - 1]) == Kept then [|outcomes| - 1] else [])
  }

  /** How many outcomes have the given fate. */
  function CountFate(outcomes: seq<Outcome>, f: Fate): nat
  {
    if outcomes == [] then 0
    else CountFate(outcomes[..|outcomes| - 1], f) + (if FateOf(outcomes[|outcomes| - 1]) == f then 1 else 0)
  }

  /** The request replaying one queued action. */
  function Replay(a: Action, token: Option<string>): Request
  {
    Request(API_BASE_URL + a.url, a.httpMethod, Bearer(token), a.body)
  }

  /** One request per entry, in queue order. */
  function Replays(q: seq<Action>, token: Option<string>): seq<Request>
  {
    seq(|q|, i requires 0 <= i < |q| => Replay(q[i], token))
  }

  /** The pass does any work only when online, with a readable non-empty queue and a token. */
  predicate PassRuns(online: bool, slot: QueueSlot, token: Option<string>)
  {
    online && slot.Stored? && |slot.entries| > 0 && Truthy(token)
  }

  function SyncAlert(count: nat): string
  {
    "\U{2601}\U{FE0F} " + NumberToString(count) + " offline activities have been synced to your profile!"
  }

  /** One more entry of the pass: the specification functions grow by that entry's share. */
  lemma PassStep(q: seq<Action>, outcomes: seq<Outcome>, i: nat, token: Option<string>)
    requires |outcomes| == |q| && i < |q|
    ensures Retained(q[..i + 1], outcomes[..i + 1]) ==
              Retained(q[..i], outcomes[..i]) + (if FateOf(outcomes[i]) == Kept then [q[i]] else [])
    ensures CountFate(outcomes[..i + 1], Synced) ==
              CountFate(outcomes[..i], Synced) + (if FateOf(outcomes[i]) == Synced then 1 else 0)
    ensures Replays(q[..i + 1], token) == Replays(q[..i], token) + [Replay(q[i], token)]
  {
    assert q[..i + 1][..i] == q[..i];
    assert outcomes[..i + 1][..i] == outcomes[..i];
  }

  /** The loop of the pass: replays every entry in order and collects the entries to keep
      and the number delivered. */
  method ReplayAll(d: Device, queue: seq<Action>, outcomes: seq<Outcome>, token: Option<string>)
    returns (failedActions: seq<Action>, successCount: nat)
    requires |outcomes| == |queue|
    modifies d`requests
    ensures failedActions == Retained(queue, outcomes)
    ensures successCount == CountFate(outcomes, Synced)
    ensures d.requests == old(d.requests) + Replays(queue, token)
  {
    failedActions := [];
    successCount := 0;
    var i := 0;
    while i < |queue|
      invariant 0 <= i <= |queue|
      invariant failedActions == Retained(queue[..i], outcomes[..i])
      invariant successCount == CountFate(outcomes[..i], Synced)
      invariant d.requests == old(d.requests) + Replays(queue[..i], token)
    {
      PassStep(queue, outcomes, i, token);
      d.requests := d.requests + [Replay(queue[i], token)];
      var outcome := outcomes[i];
      if outcome.NetworkError? {
        failedActions := failedActions + [queue[i]];
      } else if !IsOk(outcome) {
        if outcome.status >= 500 {
          failedActions := failedActions + [queue[i]];
        }
      } else {
        successCount := successCount + 1;
      }
      i := i + 1;
    }
    assert queue[..i] == queue && outcomes[..i] == outcomes;
  }

  /** `syncOfflineActions()`: one sequential pass over the queue. `outcomes[i]` is what the
      request for the i-th entry comes back with. */
  method SyncOfflineActions(d: Device, outcomes: seq<Outcome>)
    requires d.queueSlot.Stored? ==> |outcomes| == |d.queueSlot.entries|
    modifies d`queueSlot, d`requests, d`syncEvents, d`alerts
    ensures !PassRuns(old(d.online), old(d.queueSlot), old(d.token)) ==>
              && d.queueSlot == old(d.queueSlot) && d.requests == old(d.requests)
              && d.syncEvents == old(d.syncEvents) && d.alerts == old(d.alerts)
    ensures PassRuns(old(d.online), old(d.queueSlot), old(d.token)) ==>
              var q := old(d.queueSlot).entries;
              var n := CountFate(outcomes, Synced);
              && d.queueSlot == Stored(Retained(q, outcomes))
              && d.requests == old(d.requests) + Replays(q, old(d.token))
              && d.syncEvents == old(d.syncEvents) + (if n > 0 then [n] else [])
              && d.alerts == old(d.alerts) + (if n > 0 then [SyncAlert(n)] else [])
  {
    if !d.online {
      return;
    }
    if d.queueSlot.Unreadable? {
      // JSON.parse throws before the loop: the pass is abandoned with nothing changed
      return;
    }
    var queue := Pending(d.queueSlot);
    if |queue| == 0 {
      return;
    }
    var token := d.token;
    if !Truthy(token) {
      return;
    }

    var failedActions, successCount := ReplayAll(d, queue, outcomes, token);
    d.queueSlot := Stored(failedActions);
    if successCount > 0 {
      d.syncEvents := d.syncEvents + [successCount];
      d.alerts := d.alerts + [SyncAlert(successCount)];
    }
  }

  // ---------------------------------------------------------------------------
  // What a pass keeps, drops and counts

  /** The kept positions are strictly increasing, and a position is among them exactly
      when its outcome keeps the entry. */
  lemma {:induction false} KeptIndicesExact(outcomes: seq<Outcome>)
    ensures forall j, k :: 0 <= j < k < |KeptIndices(outcomes)| ==>
              KeptIndices(outcomes)[j] < KeptIndices(outcomes)[k]
    ensures forall i :: i in KeptIndices(outcomes) <==> 0 <= i < |outcomes| && FateOf(outcomes[i]) == Kept
  {
    if outcomes != [] {
      var n := |outcomes| - 1;
      var init := outcomes[..n];
      KeptIndicesExact(init);
      var ki := KeptIndices(init);
      var ko := KeptIndices(outcomes);
      var tail := if FateOf(outcomes[n]) == Kept then [n] else [];
      assert ko == ki + tail;
      forall j | 0 <= j < |ki|
        ensures ki[j] < n
      {
        assert ki[j] in ki;
      }
      forall i
        ensures i in ko <==> 0 <= i < |outcomes| && FateOf(outcomes[i]) == Kept
      {
        assert i in ko <==> i in ki || i in tail;
        if 0 <= i < n {
          assert init[i] == outcomes[i];
        }
      }
      forall j, k | 0 <= j < k < |ko|
        ensures ko[j] < ko[k]
      {
        if k < |ki| {
          assert ko[j] == ki[j] && ko[k] == ki[k];
        } else {
          assert ko[j] == ki[j] && ko[k] == n;
        }
      }
    }
  }

  /** The stored queue after a pass is the selection of the original entries at the kept
      positions: the entries are unmodified and their order is the original order. */
  lemma {:induction false} RetainedSelectsKept(q: seq<Action>, outcomes: seq<Outcome>)
    requires |outcomes| == |q|
    ensures |Retained(q, outcomes)| == |KeptIndices(outcomes)|
    ensures forall j :: 0 <= j < |Retained(q, outcomes)| ==>
              KeptIndices(outcomes)[j] < |q| && Retained(q, outcomes)[j] == q[KeptIndices(outcomes)[j]]
  {
    if q != [] {
      var n := |q| - 1;
      RetainedSelectsKept(q[..n], outcomes[..n]);
      KeptIndicesExact(outcomes[..n]);
    }
  }

  /** Every entry is synced, kept or dropped, and the stored queue holds exactly the kept ones:
      successes + retained + discarded = the original length. */
  lemma {:induction false} PassAccountsForEveryEntry(q: seq<Action>, outcomes: seq<Outcome>)
    requires |outcomes| == |q|
    ensures |Retained(q, outcomes)| == CountFate(outcomes, Kept)
    ensures CountFate(outcomes, Synced) + |Retained(q, outcomes)| + CountFate(outcomes, Dropped) == |q|
  {
    if q != [] {
      var n := |q| - 1;
      PassAccountsForEveryEntry(q[..n], outcomes[..n]);
    }
  }

  /** A pass in which every request fails transiently leaves the queue as it was and
      announces nothing. */
  lemma {:induction false} AllTransientKeepsQueue(q: seq<Action>, outcomes: seq<Outcome>)
    requires |outcomes| == |q|
    requires forall i :: 0 <= i < |outcomes| ==> FateOf(outcomes[i]) == Kept
    ensures Retained(q, outcomes) == q
    ensures CountFate(outcomes, Synced) == 0
  {
    if q != [] {
      var n := |q| - 1;
      AllTransientKeepsQueue(q[..n], outcomes[..n]);
      assert q[..n] + [q[n]] == q;
    }
  }

  /** A pass in which every request succeeds empties the queue and counts every entry. */
  lemma {:induction false} AllOkDrainsQueue(q: seq<Action>, outcomes: seq<Outcome>)
    requires |outcomes| == |q|
    requires forall i :: 0 <= i < |outcomes| ==> IsOk(outcomes[i])
    ensures Retained(q, outcomes) == []
    ensures CountFate(outcomes, Synced) == |q|
  {
    if q != [] {
      var n := |q| - 1;
      AllOkDrainsQueue(q[..n], outcomes[..n]);
    }
  }

  /** Three queued entries, the middle one failing with a network error: the queue keeps
      exactly that entry and the completion event reports two. */
  lemma PartialFailureScenario(a1: Action, a2: Action, a3: Action)
    ensures var outcomes := [Response(200), NetworkError, Response(201)];
            Retained([a1, a2, a3], outcomes) == [a2] && CountFate(outcomes, Synced) == 2
  {
    var q := [a1, a2, a3];
    var outcomes := [Response(200), NetworkError, Response(201)];
    assert q[..2] == [a1, a2] && q[..2][..1] == [a1] && q[..2][..1][..0] == [];
    assert outcomes[..2] == [Response(200), NetworkError];
    assert outcomes[..2][..1] == [Response(200)] && outcomes[..2][..1][..0] == [];
    assert Retained(q[..2][..1], outcomes[..2][..1]) == [];
    assert Retained(q[..2], outcomes[..2]) == [a2];
    assert CountFate(outcomes[..2][..1], Synced) == 1;
    assert CountFate(outcomes[..2], Synced) == 1;
  }

  // ---------------------------------------------------------------------------
  // speak: the voice choice

  datatype Voice = Voice(name: string, lang: string)

  /** `v.lang.includes(code)` */
  predicate Speaks(v: Voice, code: string)
  {
    Includes(v.lang, code)
  }

  /** A voice of the language whose lower-cased name mentions "female" or "zira". */
  predicate Preferred(v: Voice, code: string)
  {
    Speaks(v, code) &&
    (Includes(ToLowerCase(v.name), "female") || Includes(ToLowerCase(v.name), "zira"))
  }

  predicate Matches(v: Voice, code: string, preferredOnly: bool)
  {
    if preferredOnly then Preferred(v, code) else Speaks(v, code)
  }

  /** `k` is the first position of `voices` that matches. */
  predicate IsFirst(voices: seq<Voice>, code: string, preferredOnly: bool, k: int)
  {
    0 <= k < |voices| && Matches(voices[k], code, preferredOnly) &&
    forall j :: 0 <= j < k ==> !Matches(voices[j], code, preferredOnly)
  }

  /** `voices.find(...)`, as a position. */
  function FindFirst(voices: seq<Voice>, code: string, preferredOnly: bool): (r: Option<nat>)
    ensures r.Some? ==> IsFirst(voices, code, preferredOnly, r.value)
    ensures r.None? ==> forall k :: 0 <= k < |voices| ==> !Matches(voices[k], code, preferredOnly)
  {
    if voices == [] then None
    else if Matches(voices[0], code, preferredOnly) then Some(0)
    else match FindFirst(voices[1..], code, preferredOnly)
      case None => None
      case Some(k) => Some(k + 1)
  }

  /** The voice `speak(text, lang)` sets on its utterance, if any. */
  function PickVoice(voices: seq<Voice>, lang: string): (r: Option<Voice>)
    ensures var code := SplitHead(lang, '-');
            && (r.None? <==> forall k :: 0 <= k < |voices| ==> !Speaks(voices[k], code))
            && (r.Some? ==>
                  if exists j :: 0 <= j < |voices| && Preferred(voices[j], code)
                  then exists k :: IsFirst(voices, code, true, k) && r.value == voices[k]
                  else exists k :: IsFirst(voices, code, false, k) && r.value == voices[k])
  {
    var code := SplitHead(lang, '-');
    match FindFirst(voices, code, true)
    case Some(k) => Some(voices[k])
    case None =>
      match FindFirst(voices, code, false)
      case Some(k) => Some(voices[k])
      case None => None
  }
}
