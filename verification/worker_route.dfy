/** The delivery worker of app/api/admin/broadcast/worker/route.ts: three
    checks answered before any queue mutation, then a loop that pops fids
    until getNextFID yields a falsy value, sends each one through the
    transport, and settles it in the store, then completes the broadcast.

    The transport (sendNotificationWithRetry, its retries and timeouts) is a
    parameter `send` that maps the running call number and the request to an
    outcome; it is the only step that may fail. The adaptive delay between
    sends and the progress logging change no state and are left out. */
module WorkerRoute {
  import opened Common
  import opened BroadcastQueue

  datatype Notification = Notification(fid: int, title: string, body: string, targetUrl: string)

  /** One transport call: delivered, answered with a failure (whose error
      text may be missing), or thrown with an exception message. */
  datatype SendResult = Delivered | Rejected(error: Option<string>) | Threw(message: string)

  datatype Response = Done(stats: Option<Status>) | Error(status: int, error: string)

  /** The value of the `notif` query parameter: "<broadcastId>_<fid>". */
  function NotifId(id: string, fid: int): string {
    id + "_" + IntToString(fid)
  }

  /** The per-recipient link: the target URL, '&' when it already has a '?'
      and '?' otherwise, then the notif parameter. */
  function TrackingUrl(targetUrl: string, id: string, fid: int): string {
    targetUrl + (if '?' in targetUrl then "&" else "?") + "notif=" + NotifId(id, fid)
  }

  /** The link keeps the target URL as its prefix, always carries a query
      string, and ends with the notif parameter. */
  lemma TrackingUrlShape(targetUrl: string, id: string, fid: int)
    ensures var url := TrackingUrl(targetUrl, id, fid);
      && |url| == |targetUrl| + 1 + |"notif=" + NotifId(id, fid)|
      && url[..|targetUrl|] == targetUrl
      && url[|targetUrl|] == (if '?' in targetUrl then '&' else '?')
      && url[|targetUrl| + 1..] == "notif=" + NotifId(id, fid)
      && '?' in url
  {
    var url := TrackingUrl(targetUrl, id, fid);
    var sep := if '?' in targetUrl then "&" else "?";
    assert url == targetUrl + sep + ("notif=" + NotifId(id, fid));
    assert url[|targetUrl|] == sep[0];
    if '?' in targetUrl {
      var i :| 0 <= i < |targetUrl| && targetUrl[i] == '?';
      assert url[i] == '?';
    }
  }

  /** The error text recorded for a failed send: the transport's error, or
      'Unknown error' when it gave none (an empty text is falsy too); for an
      exception, its message as it is. */
  function FailureText(r: SendResult): (e: string)
    requires !r.Delivered?
    ensures r.Threw? ==> e == r.message
    ensures r.Rejected? ==> e != ""
    ensures r.Rejected? && r.error.Some? && r.error.value != "" ==> e == r.error.value
    ensures r.Rejected? && (r.error.None? || r.error.value == "") ==> e == "Unknown error"
  {
    match r
    case Rejected(error) =>
      if error.Some? && error.value != "" then error.value else "Unknown error"
    case Threw(message) => message
  }

  /** The bookkeeping for one popped fid once the transport has answered:
      removeFromProcessing, then markSuccess or markFailed. */
  function Settle(k: Keys, fid: int, r: SendResult): Keys {
    var k1 := AfterRemove(k, fid);
    if r.Delivered? then AfterSuccess(k1, fid) else AfterFailure(k1, fid, FailureText(r))
  }

  /** Settling a fid takes it out of processing and puts it in the
      succeeded set or the failed hash, moving one from pending to sent or
      failed; the counter identity is kept. */
  lemma SettleEffect(k: Keys, fid: int, r: SendResult)
    ensures Settle(k, fid, r).pending == k.pending
    ensures Settle(k, fid, r).processing == k.processing - {fid}
    ensures Settle(k, fid, r).stats.processing == k.stats.processing - 1
    ensures Settle(k, fid, r).stats.pending == k.stats.pending - 1
    ensures Settle(k, fid, r).stats.sent + Settle(k, fid, r).stats.failed == k.stats.sent + k.stats.failed + 1
    ensures Settle(k, fid, r).stats.total == k.stats.total
    ensures r.Delivered? ==> Settle(k, fid, r).succeeded == k.succeeded + {fid} && Settle(k, fid, r).failed == k.failed
    ensures !r.Delivered? ==> Settle(k, fid, r).succeeded == k.succeeded
                              && Settle(k, fid, r).failed == k.failed[fid := FailureText(r)]
    ensures Balanced(k.stats) ==> Balanced(Settle(k, fid, r).stats)
    ensures Settle(k, fid, r).stats.written
    ensures DeliveryFrame(k, Settle(k, fid, r))
  {
  }

  /** The state of a drain: the broadcast's keys and the loop's two counters. */
  datatype Drained = Drained(keys: Keys, consecutiveErrors: nat, processed: nat)

  /** The request the worker sends for the n-th popped fid. */
  function Request(id: string, m: Message, fid: int): Notification {
    Notification(fid, m.title, m.body, TrackingUrl(m.targetUrl, id, fid))
  }

  /** One turn of the loop for the fid at the tail of a non-empty list:
      pop it, send it, settle it; consecutiveErrors goes back to 0 on a
      delivery and up by one on every failure, thrown or not. */
  function Turn(d: Drained, id: string, m: Message, send: (nat, Notification) -> SendResult): Drained
    requires d.keys.pending != []
  {
    var fid := d.keys.pending[|d.keys.pending| - 1];
    var n := d.processed + 1;
    var r := send(n, Request(id, m, fid));
    Drained(Settle(AfterPop(d.keys), fid, r), if r.Delivered? then 0 else d.consecutiveErrors + 1, n)
  }

  /** A turn pops the tail fid and settles it: one fewer in the list and
      pending, one more processed and in sent + failed, the processing
      counter back where it was, and the fid in succeeded or failed. */
  lemma TurnEffect(d: Drained, id: string, m: Message, send: (nat, Notification) -> SendResult)
    requires d.keys.pending != []
    ensures Turn(d, id, m, send).keys.pending == AfterPop(d.keys).pending
    ensures |Turn(d, id, m, send).keys.pending| == |d.keys.pending| - 1
    ensures Turn(d, id, m, send).processed == d.processed + 1
    ensures Turn(d, id, m, send).keys.stats.processing == d.keys.stats.processing
    ensures Turn(d, id, m, send).keys.stats.pending == d.keys.stats.pending - 1
    ensures Turn(d, id, m, send).keys.stats.sent + Turn(d, id, m, send).keys.stats.failed
            == d.keys.stats.sent + d.keys.stats.failed + 1
    ensures Turn(d, id, m, send).keys.stats.total == d.keys.stats.total
    ensures var fid := Popped(d.keys).value;
            fid in Turn(d, id, m, send).keys.succeeded || fid in Turn(d, id, m, send).keys.failed
    ensures d.keys.succeeded <= Turn(d, id, m, send).keys.succeeded
    ensures d.keys.failed.Keys <= Turn(d, id, m, send).keys.failed.Keys
    ensures Balanced(d.keys.stats) ==> Balanced(Turn(d, id, m, send).keys.stats)
    ensures Turn(d, id, m, send).keys.stats.written
    ensures DeliveryFrame(d.keys, Turn(d, id, m, send).keys)
    ensures Turn(d, id, m, send).consecutiveErrors
            == if send(d.processed + 1, Request(id, m, Popped(d.keys).value)).Delivered?
               then 0 else d.consecutiveErrors + 1
  {
    var fid := d.keys.pending[|d.keys.pending| - 1];
    var r := send(d.processed + 1, Request(id, m, fid));
    SettleEffect(AfterPop(d.keys), fid, r);
  }

  /** What the drain loop does from a given state until getNextFID yields
      null or 0; a popped 0 ends the loop and stays in the processing set. */
  function Drain(d: Drained, id: string, m: Message, send: (nat, Notification) -> SendResult): Drained
    decreases |d.keys.pending|
  {
    if d.keys.pending == [] then d
    else if d.keys.pending[|d.keys.pending| - 1] == 0 then d.(keys := AfterPop(d.keys))
    else Drain(Turn(d, id, m, send), id, m, send)
  }

  /** How Drain unfolds at the head of the loop. */
  lemma DrainStep(d: Drained, id: string, m: Message, send: (nat, Notification) -> SendResult)
    ensures d.keys.pending == [] ==> Drain(d, id, m, send) == d
    ensures d.keys.pending != [] && d.keys.pending[|d.keys.pending| - 1] == 0 ==>
              Drain(d, id, m, send) == d.(keys := AfterPop(d.keys))
    ensures d.keys.pending != [] && d.keys.pending[|d.keys.pending| - 1] != 0 ==>
              Drain(d, id, m, send) == Drain(Turn(d, id, m, send), id, m, send)
  {
  }

  /** With no 0 in the list, the drain empties it and settles every popped
      fid exactly once: each ends in the succeeded set or the failed hash,
      sent + failed grows by the number popped, pending shrinks by it, and
      the processing counter ends where it started. */
  lemma {:induction false} DrainSettlesEveryFid(
    d: Drained, id: string, m: Message, send: (nat, Notification) -> SendResult)
    requires 0 !in d.keys.pending
    ensures Drain(d, id, m, send).keys.pending == []
    ensures Drain(d, id, m, send).processed == d.processed + |d.keys.pending|
    ensures Drain(d, id, m, send).keys.stats.processing == d.keys.stats.processing
    ensures Drain(d, id, m, send).keys.stats.pending == d.keys.stats.pending - |d.keys.pending|
    ensures Drain(d, id, m, send).keys.stats.sent + Drain(d, id, m, send).keys.stats.failed
            == d.keys.stats.sent + d.keys.stats.failed + |d.keys.pending|
    ensures Drain(d, id, m, send).keys.stats.total == d.keys.stats.total
    ensures d.keys.succeeded <= Drain(d, id, m, send).keys.succeeded
    ensures d.keys.failed.Keys <= Drain(d, id, m, send).keys.failed.Keys
    ensures forall f :: f in d.keys.pending ==>
              f in Drain(d, id, m, send).keys.succeeded || f in Drain(d, id, m, send).keys.failed
    ensures Balanced(d.keys.stats) ==> Balanced(Drain(d, id, m, send).keys.stats)
    ensures d.keys.stats.written ==> Drain(d, id, m, send).keys.stats.written
    decreases |d.keys.pending|
  {
    var l := d.keys.pending;
    if l != [] {
      var next := Turn(d, id, m, send);
      assert Drain(d, id, m, send) == Drain(next, id, m, send);
      assert next.keys.pending == l[..|l| - 1];
      assert 0 !in next.keys.pending by {
        forall i | 0 <= i < |l| - 1 ensures next.keys.pending[i] != 0 { assert l[i] in l; }
      }
      DrainSettlesEveryFid(next, id, m, send);
      forall f | f in l
        ensures f in Drain(d, id, m, send).keys.succeeded || f in Drain(d, id, m, send).keys.failed
      {
        var i :| 0 <= i < |l| && l[i] == f;
        if i < |l| - 1 {
          assert next.keys.pending[i] == f;
        }
      }
    }
  }

  /** A 0 in the list ends the drain where it is popped: the fids pushed
      after it (popped before it) are settled, 0 is left in the processing
      set with the processing counter one up, and the fids pushed before it
      stay in the list as they were. */
  lemma {:induction false} DrainStopsAtZero(
    d: Drained, id: string, m: Message, send: (nat, Notification) -> SendResult, z: nat)
    requires z < |d.keys.pending| && d.keys.pending[z] == 0
    requires forall i :: z < i < |d.keys.pending| ==> d.keys.pending[i] != 0
    ensures Drain(d, id, m, send).keys.pending == d.keys.pending[..z]
    ensures 0 in Drain(d, id, m, send).keys.processing
    ensures Drain(d, id, m, send).processed == d.processed + (|d.keys.pending| - 1 - z)
    decreases |d.keys.pending|
  {
    var l := d.keys.pending;
    if z == |l| - 1 {
      assert Drain(d, id, m, send) == d.(keys := AfterPop(d.keys)) by { DrainStep(d, id, m, send); }
    } else {
      assert l[|l| - 1] != 0;
      var next := Turn(d, id, m, send);
      assert Drain(d, id, m, send) == Drain(next, id, m, send) by { DrainStep(d, id, m, send); }
      assert next.keys.pending == l[..|l| - 1] && next.processed == d.processed + 1 by {
        TurnEffect(d, id, m, send);
      }
      DrainStopsAtZero(next, id, m, send, z);
      assert l[..|l| - 1][..z] == l[..z];
    }
  }

  /** The counters when a 0 ends the drain: the processing counter is one up
      (for the 0 left in the set), pending is down by the number settled,
      and the balance of the status hash is kept. */
  lemma {:induction false} DrainStopsAtZeroStats(
    d: Drained, id: string, m: Message, send: (nat, Notification) -> SendResult, z: nat)
    requires z < |d.keys.pending| && d.keys.pending[z] == 0
    requires forall i :: z < i < |d.keys.pending| ==> d.keys.pending[i] != 0
    ensures Drain(d, id, m, send).keys.stats.processing == d.keys.stats.processing + 1
    ensures Drain(d, id, m, send).keys.stats.pending == d.keys.stats.pending - (|d.keys.pending| - 1 - z)
    ensures Balanced(d.keys.stats) ==> Balanced(Drain(d, id, m, send).keys.stats)
    decreases |d.keys.pending|
  {
    var l := d.keys.pending;
    DrainStep(d, id, m, send);
    if z == |l| - 1 {
      assert Drain(d, id, m, send) == d.(keys := AfterPop(d.keys));
    } else {
      assert l[|l| - 1] != 0;
      var next := Turn(d, id, m, send);
      TurnEffect(d, id, m, send);
      assert Drain(d, id, m, send) == Drain(next, id, m, send);
      assert next.keys.pending == l[..|l| - 1];
      DrainStopsAtZeroStats(next, id, m, send, z);
    }
  }

  /** Delivering never touches the message, the clicks hash, the click
      counter, the total or the times, however the drain ends. */
  lemma {:induction false} DrainKeepsRecord(
    d: Drained, id: string, m: Message, send: (nat, Notification) -> SendResult)
    ensures DeliveryFrame(d.keys, Drain(d, id, m, send).keys)
    decreases |d.keys.pending|
  {
    DrainStep(d, id, m, send);
    var l := d.keys.pending;
    if l != [] && l[|l| - 1] != 0 {
      var next := Turn(d, id, m, send);
      TurnEffect(d, id, m, send);
      DrainKeepsRecord(next, id, m, send);
    }
  }

  /** The completion property: from a quiescent broadcast with stats and no
      0 in its list, a drain followed by completeBroadcast leaves pending and
      processing at 0, sent + failed == total, and an empty list. */
  lemma DrainCompletes(k: Keys, id: string, m: Message, send: (nat, Notification) -> SendResult, now: int)
    requires Quiescent(k) && 0 !in k.pending && k.stats.written
    ensures AfterComplete(Drain(Drained(k, 0, 0), id, m, send).keys, now).pending == []
    ensures Quiescent(AfterComplete(Drain(Drained(k, 0, 0), id, m, send).keys, now))
    ensures AfterComplete(Drain(Drained(k, 0, 0), id, m, send).keys, now).stats.pending == 0
    ensures Drain(Drained(k, 0, 0), id, m, send).keys.stats.written
    ensures AfterComplete(Drain(Drained(k, 0, 0), id, m, send).keys, now).stats.duration
            == Some(now - k.stats.startTime)
    ensures AfterComplete(Drain(Drained(k, 0, 0), id, m, send).keys, now).message == k.message
    ensures AfterComplete(Drain(Drained(k, 0, 0), id, m, send).keys, now).clicks == k.clicks
  {
    DrainSettlesEveryFid(Drained(k, 0, 0), id, m, send);
    DrainKeepsRecord(Drained(k, 0, 0), id, m, send);
  }

  /** The body of one loop turn after the pop: the try block, or the catch
      block when the transport threw. */
  method SettleFid(store: Store, id: string, fid: int, result: SendResult)
    returns (delivered: bool)
    modifies store
    ensures store.jobs == old(store.jobs)[id := Settle(old(store.Job(id)), fid, result)]
    ensures store.active == old(store.active) && store.history == old(store.history)
    ensures delivered <==> result.Delivered?
  {
    if result.Threw? {
      store.RemoveFromProcessing(id, fid);
      store.MarkFailed(id, fid, result.message);
      return false;
    }
    store.RemoveFromProcessing(id, fid);
    if result.Delivered? {
      store.MarkSuccess(id, fid);
      return true;
    }
    store.MarkFailed(id, fid, FailureText(result));
    return false;
  }

  /** getNextFID yields null or 0 for this state: the loop breaks. */
  predicate Stops(k: Keys) {
    k.pending == [] || k.pending[|k.pending| - 1] == 0
  }

  /** One pass of the loop body on the model: the pop and the break, or a
      whole turn. */
  function Step(d: Drained, id: string, m: Message, send: (nat, Notification) -> SendResult): Drained {
    if Stops(d.keys) then d.(keys := AfterPop(d.keys)) else Turn(d, id, m, send)
  }

  /** The rest of a loop turn once a truthy fid was popped: count it,
      send it, settle it, and move consecutiveErrors. */
  method SendAndSettle(store: Store, id: string, m: Message, send: (nat, Notification) -> SendResult,
                       f: int, consecutiveErrors: nat, processedCount: nat)
    returns (errorsAfter: nat, processedAfter: nat)
    modifies store
    ensures var r := send(processedCount + 1, Request(id, m, f));
            && store.jobs == old(store.jobs)[id := Settle(old(store.Job(id)), f, r)]
            && processedAfter == processedCount + 1
            && errorsAfter == if r.Delivered? then 0 else consecutiveErrors + 1
    ensures store.active == old(store.active) && store.history == old(store.history)
  {
    processedAfter := processedCount + 1;
    var result := send(processedAfter, Request(id, m, f));
    var delivered := SettleFid(store, id, f, result);
    errorsAfter := if delivered then 0 else consecutiveErrors + 1;
  }

  /** One pass of the loop body: getNextFID, and for a truthy fid the send
      and its bookkeeping. `stop` is the loop's break. */
  method LoopTurn(store: Store, id: string, m: Message, send: (nat, Notification) -> SendResult,
                  consecutiveErrors: nat, processedCount: nat)
    returns (stop: bool, errorsAfter: nat, processedAfter: nat)
    requires id in store.jobs
    modifies store
    ensures stop == Stops(old(store.Job(id)))
    ensures Drained(store.Job(id), errorsAfter, processedAfter)
            == Step(Drained(old(store.Job(id)), consecutiveErrors, processedCount), id, m, send)
    ensures id in store.jobs && store.jobs == old(store.jobs)[id := store.Job(id)]
    ensures store.active == old(store.active) && store.history == old(store.history)
  {
    ghost var d := Drained(store.Job(id), consecutiveErrors, processedCount);
    var fid := store.GetNextFID(id);
    if fid.None? || fid.value == 0 {
      return true, consecutiveErrors, processedCount;
    }
    ghost var popped := store.Job(id);
    errorsAfter, processedAfter := SendAndSettle(store, id, m, send, fid.value, consecutiveErrors, processedCount);
    assert Drained(store.Job(id), errorsAfter, processedAfter) == Turn(d, id, m, send);
    stop := false;
  }

  /** The `while (true)` loop of the worker, from fresh counters. */
  method DrainQueue(store: Store, id: string, m: Message, send: (nat, Notification) -> SendResult)
    returns (consecutiveErrors: nat, processedCount: nat)
    requires id in store.jobs
    modifies store
    ensures var d := Drain(Drained(old(store.Job(id)), 0, 0), id, m, send);
            && store.jobs == old(store.jobs)[id := d.keys]
            && consecutiveErrors == d.consecutiveErrors && processedCount == d.processed
    ensures store.active == old(store.active) && store.history == old(store.history)
  {
    ghost var goal := Drain(Drained(store.Job(id), 0, 0), id, m, send);
    consecutiveErrors, processedCount := 0, 0;
    while true
      invariant Drain(Drained(store.Job(id), consecutiveErrors, processedCount), id, m, send) == goal
      invariant id in store.jobs && store.jobs == old(store.jobs)[id := store.Job(id)]
      invariant store.active == old(store.active) && store.history == old(store.history)
      decreases |store.Job(id).pending|
    {
      ghost var d := Drained(store.Job(id), consecutiveErrors, processedCount);
      var stop;
      stop, consecutiveErrors, processedCount := LoopTurn(store, id, m, send, consecutiveErrors, processedCount);
      DrainAdvance(d, Drained(store.Job(id), consecutiveErrors, processedCount), stop, id, m, send);
      if stop {
        break;
      }
    }
  }

  /** One pass of the loop body either ends the drain or leaves the same
      drain still to come on a shorter list. */
  lemma DrainAdvance(d: Drained, d': Drained, stop: bool, id: string, m: Message,
                     send: (nat, Notification) -> SendResult)
    requires stop == Stops(d.keys)
    requires d' == Step(d, id, m, send)
    ensures stop ==> d' == Drain(d, id, m, send)
    ensures !stop ==> Drain(d', id, m, send) == Drain(d, id, m, send)
                      && |d'.keys.pending| < |d.keys.pending|
  {
    DrainStep(d, id, m, send);
  }

  /** POST /api/admin/broadcast/worker. */
  method Post(store: Store, broadcastId: Option<string>, send: (nat, Notification) -> SendResult, now: int)
    returns (resp: Response, consecutiveErrors: nat, processedCount: nat)
    modifies store
    ensures Missing(broadcastId) ==>
              resp == Error(400, "Missing broadcastId") && unchanged(store)
    ensures !Missing(broadcastId) && broadcastId.value !in old(store.active) ==>
              resp == Error(400, "Broadcast not active") && unchanged(store)
    ensures !Missing(broadcastId) && broadcastId.value in old(store.active)
            && old(store.Job(broadcastId.value)).message.None? ==>
              resp == Error(404, "Broadcast message not found") && unchanged(store)
    ensures !Missing(broadcastId) && broadcastId.value in old(store.active)
            && old(store.Job(broadcastId.value)).message.Some? ==>
              var id := broadcastId.value;
              var d := Drain(Drained(old(store.Job(id)), 0, 0), id, old(store.Job(id)).message.value, send);
              && store.jobs == old(store.jobs)[id := AfterComplete(d.keys, now)]
              && store.active == (if !d.keys.stats.written then old(store.active) else old(store.active) - {id})
              && store.history == old(store.history)
              && consecutiveErrors == d.consecutiveErrors && processedCount == d.processed
              && resp == Done(StatusOf(AfterComplete(d.keys, now).stats))
    ensures !Missing(broadcastId) && broadcastId.value in old(store.active)
            && old(store.Job(broadcastId.value)).message.Some?
            && Quiescent(old(store.Job(broadcastId.value)))
            && 0 !in old(store.Job(broadcastId.value)).pending
            && old(store.Job(broadcastId.value)).stats.written ==>
              && store.Job(broadcastId.value).pending == []
              && Quiescent(store.Job(broadcastId.value))
              && store.Job(broadcastId.value).stats.pending == 0
              && store.Job(broadcastId.value).stats.duration
                 == Some(now - old(store.Job(broadcastId.value)).stats.startTime)
              && broadcastId.value !in store.active
  {
    if Missing(broadcastId) {
      return Error(400, "Missing broadcastId"), 0, 0;
    }
    var id := broadcastId.value;
    var isActive := store.IsBroadcastActive(id);
    if !isActive {
      return Error(400, "Broadcast not active"), 0, 0;
    }
    var message := store.GetBroadcastMessage(id);
    if message.None? {
      return Error(404, "Broadcast message not found"), 0, 0;
    }
    var m := message.value;
    ghost var k0 := store.Job(id);
    ghost var d := Drain(Drained(k0, 0, 0), id, m, send);
    assert id in store.jobs;
    consecutiveErrors, processedCount := DrainQueue(store, id, m, send);
    assert store.Job(id) == d.keys;
    store.CompleteBroadcast(id, now);
    assert store.jobs == old(store.jobs)[id := AfterComplete(d.keys, now)];
    var finalStatus := store.GetBroadcastStatus(id);
    resp := Done(finalStatus);

    if Quiescent(k0) && 0 !in k0.pending && k0.stats.written {
      DrainCompletes(k0, id, m, send, now);
    }
  }
}
