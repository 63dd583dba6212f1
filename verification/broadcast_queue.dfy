/** The per-broadcast job store of lib/broadcast-queue.ts over an in-memory
    model of the Redis keys it uses:

      broadcast:<id>:message     the message (SETEX; the TTL is not modelled)
      broadcast:<id>:pending     a list of fids (LPUSH at enqueue, RPOP at pop)
      broadcast:<id>:processing  a set of fids
      broadcast:<id>:succeeded   a set of fids
      broadcast:<id>:failed      a hash fid -> last error text
      broadcast:<id>:clicks      a hash fid -> click time
      broadcast:<id>:stats       a hash of integer counters
      broadcast:active           a set of broadcast ids
      broadcast:history          a list of broadcast ids, newest at the head

    Each helper of the source is one method of Store that applies a pure
    transition function (AfterPop, AfterSuccess, ...) to the keys of one
    broadcast; the counter discipline is proved about those functions. */
module BroadcastQueue {
  import opened Common

  datatype Message = Message(title: string, body: string, targetUrl: string)

  /** The stats hash. Every counter the source reads with
      `parseInt(stats.f || '0')` is an integer that reads as 0 until written;
      endTime and duration are read only when present. `written` says
      whether the hash exists at all, which is what decides between a
      status and null. */
  datatype Stats = Stats(
    written: bool,
    total: int, sent: int, failed: int, pending: int, processing: int, clicks: int,
    startTime: int, endTime: Option<int>, duration: Option<int>)

  /** A hash that was never written. */
  const NoStats := Stats(false, 0, 0, 0, 0, 0, 0, 0, None, None)

  /** sent + failed + pending == total: the counter identity every helper keeps. */
  predicate Balanced(s: Stats) {
    s.sent + s.failed + s.pending == s.total
  }

  /** The record getBroadcastStatus returns. */
  datatype Status = Status(
    total: int, sent: int, failed: int, pending: int, processing: int, clicks: int,
    startTime: int, endTime: Option<int>, duration: Option<int>)

  /** getBroadcastStatus on the hash it reads: null for a hash that does
      not exist, otherwise every field as read. */
  function StatusOf(s: Stats): (r: Option<Status>)
    ensures r.None? <==> !s.written
    ensures r.Some? ==> (r.value.sent + r.value.failed + r.value.pending == r.value.total <==> Balanced(s))
  {
    if !s.written then None
    else Some(Status(s.total, s.sent, s.failed, s.pending, s.processing, s.clicks,
                     s.startTime, s.endTime, s.duration))
  }

  /** All keys one broadcast owns. The pending list has its head at index 0.
      Fids are held as numbers except in the clicks hash, whose fields keep
      the text Redis stores, because a click can arrive with a fid that is
      not a number. */
  datatype Keys = Keys(
    message: Option<Message>,
    pending: seq<int>,
    processing: set<int>,
    succeeded: set<int>,
    failed: map<int, string>,
    clicks: map<string, int>,
    stats: Stats)

  /** What the store holds for an id that was never written. */
  const NoKeys := Keys(None, [], {}, {}, map[], map[], NoStats)

  function JobOf(jobs: map<string, Keys>, id: string): Keys {
    if id in jobs then jobs[id] else NoKeys
  }

  // ---------------------------------------------------------------------
  // Redis lists
  // ---------------------------------------------------------------------

  /** LPUSH key x1 x2 ... xn: each value in turn becomes the new head. */
  function LPush(l: seq<int>, xs: seq<int>): (r: seq<int>)
    ensures |r| == |l| + |xs|
    decreases |xs|
  {
    if xs == [] then l else LPush([xs[0]] + l, xs[1..])
  }

  /** The values that successive RPOPs return, until the list is empty. */
  function PopOrder(l: seq<int>): (r: seq<int>)
    ensures |r| == |l|
  {
    if l == [] then [] else [l[|l| - 1]] + PopOrder(l[..|l| - 1])
  }

  lemma {:induction false} PopOrderAfterHead(x: int, l: seq<int>)
    ensures PopOrder([x] + l) == PopOrder(l) + [x]
  {
    if l != [] {
      assert ([x] + l)[..|l|] == [x] + l[..|l| - 1];
      PopOrderAfterHead(x, l[..|l| - 1]);
    }
  }

  /** FIFO: what LPUSH adds is popped after everything already in the list,
      and in the order it was given. */
  lemma {:induction false} LPushIsFifo(l: seq<int>, xs: seq<int>)
    ensures PopOrder(LPush(l, xs)) == PopOrder(l) + xs
    decreases |xs|
  {
    if xs != [] {
      LPushIsFifo([xs[0]] + l, xs[1..]);
      PopOrderAfterHead(xs[0], l);
      assert [xs[0]] + xs[1..] == xs;
    }
  }

  lemma {:induction false} LPushElements(l: seq<int>, xs: seq<int>)
    ensures multiset(LPush(l, xs)) == multiset(l) + multiset(xs)
    decreases |xs|
  {
    if xs != [] {
      LPushElements([xs[0]] + l, xs[1..]);
      assert xs == [xs[0]] + xs[1..];
    }
  }

  /** LRANGE key start stop, with Redis' treatment of negative and
      out-of-range indices. */
  function LRange<T>(l: seq<T>, start: int, stop: int): seq<T> {
    var s0 := if start < 0 then |l| + start else start;
    var e0 := if stop < 0 then |l| + stop else stop;
    var s := if s0 < 0 then 0 else s0;
    if s > e0 || s >= |l| then []
    else
      var e := if e0 >= |l| then |l| - 1 else e0;
      l[s..e + 1]
  }

  // ---------------------------------------------------------------------
  // One transition per helper, on the keys of one broadcast
  // ---------------------------------------------------------------------

  /** The state a broadcast is in between worker runs: nothing in flight,
      the pending counter equal to the length of the list, and the counter
      identity. */
  predicate Quiescent(k: Keys) {
    k.stats.processing == 0 && k.stats.pending == |k.pending| && Balanced(k.stats)
  }

  /** enqueueBroadcast: store the message, push the fids when there are any,
      and write the initial counters over whatever the stats hash held
      (HSET keeps the fields it does not name). */
  function AfterEnqueue(k: Keys, fids: seq<int>, m: Message, startTime: int): (r: Keys)
    ensures StatusOf(r.stats) == Some(Status(
              |fids|, 0, 0, |fids|, 0, 0, startTime, k.stats.endTime, k.stats.duration))
    ensures Balanced(r.stats)
    ensures r.message == Some(m)
    ensures PopOrder(r.pending) == PopOrder(k.pending) + fids
    ensures r.processing == k.processing && r.succeeded == k.succeeded
    ensures r.failed == k.failed && r.clicks == k.clicks
    ensures k.pending == [] ==> Quiescent(r)
  {
    var pending := if |fids| > 0 then LPush(k.pending, fids) else k.pending;
    LPushIsFifo(k.pending, fids);
    k.(message := Some(m), pending := pending,
       stats := Stats(true, |fids|, 0, 0, |fids|, 0, 0, startTime, k.stats.endTime, k.stats.duration))
  }

  /** What RPOP returns: the tail of the list, or null when it is empty. */
  function Popped(k: Keys): (r: Option<int>)
    ensures r.None? <==> k.pending == []
    ensures r.Some? ==> r.value in k.pending
  {
    if k.pending == [] then None else Some(k.pending[|k.pending| - 1])
  }

  /** getNextFID: RPOP, SADD processing, HINCRBY processing 1 (pending is
      left alone). An empty list changes nothing. */
  function AfterPop(k: Keys): (r: Keys)
    ensures k.pending == [] ==> r == k
    ensures k.pending != [] ==>
              && |r.pending| == |k.pending| - 1
              && r.processing == k.processing + {Popped(k).value}
              && r.stats.processing == k.stats.processing + 1
              && r.succeeded == k.succeeded && r.failed == k.failed && r.clicks == k.clicks
    ensures r.stats.written == (k.stats.written || k.pending != [])
    ensures r.stats.pending == k.stats.pending && r.stats.sent == k.stats.sent
    ensures r.stats.failed == k.stats.failed && r.stats.total == k.stats.total
    ensures Balanced(k.stats) ==> Balanced(r.stats)
    ensures r.(pending := k.pending, processing := k.processing, stats := k.stats) == k
    ensures r.stats.(written := k.stats.written, processing := k.stats.processing) == k.stats
  {
    if k.pending == [] then k
    else
      var fid := k.pending[|k.pending| - 1];
      k.(pending := k.pending[..|k.pending| - 1],
         processing := k.processing + {fid},
         stats := k.stats.(written := true, processing := k.stats.processing + 1))
  }

  /** r differs from k only in what delivering fids writes: the list, the
      processing and succeeded sets, the failed hash, and the counters sent,
      failed, pending and processing. The message, the clicks hash, the
      click counter, the total and the three times are kept. */
  predicate DeliveryFrame(k: Keys, r: Keys) {
    && r.message == k.message && r.clicks == k.clicks
    && r.stats.total == k.stats.total && r.stats.clicks == k.stats.clicks
    && r.stats.startTime == k.stats.startTime
    && r.stats.endTime == k.stats.endTime && r.stats.duration == k.stats.duration
  }

  /** A pop takes the fid pushed earliest of those still in the list, and
      leaves the others to be popped in the same order as before. */
  lemma PopTakesOldest(k: Keys)
    requires k.pending != []
    ensures Popped(k) == Some(PopOrder(k.pending)[0])
    ensures PopOrder(AfterPop(k).pending) == PopOrder(k.pending)[1..]
  {
  }

  /** markSuccess: SADD succeeded, sent += 1, pending -= 1. */
  function AfterSuccess(k: Keys, fid: int): (r: Keys)
    ensures r.succeeded == k.succeeded + {fid}
    ensures r.stats.sent == k.stats.sent + 1 && r.stats.pending == k.stats.pending - 1
    ensures r.stats.failed == k.stats.failed && r.stats.total == k.stats.total
    ensures r.stats.processing == k.stats.processing && r.stats.written
    ensures r.pending == k.pending && r.processing == k.processing && r.failed == k.failed
    ensures Balanced(k.stats) ==> Balanced(r.stats)
    ensures r.(succeeded := k.succeeded, stats := k.stats) == k
    ensures r.stats.(written := k.stats.written, sent := k.stats.sent, pending := k.stats.pending) == k.stats
  {
    k.(succeeded := k.succeeded + {fid},
       stats := k.stats.(written := true, sent := k.stats.sent + 1, pending := k.stats.pending - 1))
  }

  /** markFailed: HSET failed fid error (overwriting an earlier error),
      failed += 1, pending -= 1. */
  function AfterFailure(k: Keys, fid: int, error: string): (r: Keys)
    ensures fid in r.failed && r.failed[fid] == error
    ensures r.failed.Keys == k.failed.Keys + {fid}
    ensures forall f :: f in k.failed && f != fid ==> r.failed[f] == k.failed[f]
    ensures r.stats.failed == k.stats.failed + 1 && r.stats.pending == k.stats.pending - 1
    ensures r.stats.sent == k.stats.sent && r.stats.total == k.stats.total
    ensures r.stats.processing == k.stats.processing && r.stats.written
    ensures r.pending == k.pending && r.processing == k.processing && r.succeeded == k.succeeded
    ensures Balanced(k.stats) ==> Balanced(r.stats)
    ensures r.(failed := k.failed, stats := k.stats) == k
    ensures r.stats.(written := k.stats.written, failed := k.stats.failed, pending := k.stats.pending) == k.stats
  {
    k.(failed := k.failed[fid := error],
       stats := k.stats.(written := true, failed := k.stats.failed + 1, pending := k.stats.pending - 1))
  }

  /** removeFromProcessing: SREM processing fid and processing -= 1, even
      when fid was not in the set. */
  function AfterRemove(k: Keys, fid: int): (r: Keys)
    ensures r.processing == k.processing - {fid}
    ensures r.stats.processing == k.stats.processing - 1 && r.stats.written
    ensures r.stats.sent == k.stats.sent && r.stats.failed == k.stats.failed
    ensures r.stats.pending == k.stats.pending && r.stats.total == k.stats.total
    ensures r.pending == k.pending && r.succeeded == k.succeeded && r.failed == k.failed
    ensures Balanced(k.stats) ==> Balanced(r.stats)
    ensures r.(processing := k.processing, stats := k.stats) == k
    ensures r.stats.(written := k.stats.written, processing := k.stats.processing) == k.stats
  {
    k.(processing := k.processing - {fid},
       stats := k.stats.(written := true, processing := k.stats.processing - 1))
  }

  /** completeBroadcast on the keys: nothing when there is no status, else
      endTime := now and duration := now - startTime. */
  function AfterComplete(k: Keys, now: int): (r: Keys)
    ensures !k.stats.written ==> r == k
    ensures k.stats.written ==>
              && StatusOf(r.stats).Some?
              && StatusOf(r.stats).value.endTime == Some(now)
              && StatusOf(r.stats).value.duration == Some(now - k.stats.startTime)
    ensures r.stats.(endTime := k.stats.endTime, duration := k.stats.duration) == k.stats
    ensures r.pending == k.pending && r.processing == k.processing
    ensures r.succeeded == k.succeeded && r.failed == k.failed && r.clicks == k.clicks
    ensures r.(stats := k.stats) == k
    ensures Quiescent(k) ==> Quiescent(r)
  {
    if !k.stats.written then k
    else k.(stats := k.stats.(endTime := Some(now), duration := Some(now - k.stats.startTime)))
  }

  /** retryFailed on the keys, once the failed fids have been read in the
      order getFailedFIDs lists them: clear the hash, push them, pending += n,
      failed -= n. */
  function AfterRetry(k: Keys, order: seq<int>): Keys {
    k.(failed := map[], pending := LPush(k.pending, order),
       stats := k.stats.(written := true, pending := k.stats.pending + |order|,
                         failed := k.stats.failed - |order|))
  }

  /** A retry puts back exactly the failed fids, behind the ones still
      pending, empties the failed hash and keeps the counter identity. */
  lemma RetryRequeuesFailed(k: Keys, order: seq<int>)
    requires IsEnumeration(order, k.failed.Keys)
    ensures |order| == |k.failed|
    ensures PopOrder(AfterRetry(k, order).pending) == PopOrder(k.pending) + order
    ensures multiset(AfterRetry(k, order).pending) == multiset(k.pending) + multiset(k.failed.Keys)
    ensures AfterRetry(k, order).failed == map[]
    ensures AfterRetry(k, order).stats.pending == k.stats.pending + |k.failed|
    ensures AfterRetry(k, order).stats.failed == k.stats.failed - |k.failed|
    ensures Balanced(k.stats) ==> Balanced(AfterRetry(k, order).stats)
    ensures Quiescent(k) ==> Quiescent(AfterRetry(k, order))
    ensures AfterRetry(k, order).(failed := k.failed, pending := k.pending, stats := k.stats) == k
    ensures AfterRetry(k, order).stats.(written := k.stats.written, pending := k.stats.pending,
                                        failed := k.stats.failed) == k.stats
  {
    EnumerationLength(order, k.failed.Keys);
    assert |k.failed.Keys| == |k.failed|;
    LPushIsFifo(k.pending, order);
    LPushElements(k.pending, order);
    EnumerationMultiset(order, k.failed.Keys);
  }

  lemma {:induction false} EnumerationMultiset(xs: seq<int>, s: set<int>)
    requires IsEnumeration(xs, s)
    ensures multiset(xs) == multiset(s)
    decreases |xs|
  {
    if xs == [] {
      assert s == {};
    } else {
      var last := xs[|xs| - 1];
      var init := xs[..|xs| - 1];
      assert xs == init + [last];
      assert last !in init by {
        forall i | 0 <= i < |init| ensures init[i] != last { assert xs[i] != xs[|xs| - 1]; }
      }
      assert IsEnumeration(init, s - {last});
      EnumerationMultiset(init, s - {last});
      assert s == (s - {last}) + {last};
    }
  }

  datatype FailedEntry = FailedEntry(fid: int, error: string)

  /** failedEntries.map(e => e.fid). */
  function FidsOf(entries: seq<FailedEntry>): seq<int> {
    seq(|entries|, i requires 0 <= i < |entries| => entries[i].fid)
  }


  // ---------------------------------------------------------------------
  // The store
  // ---------------------------------------------------------------------

  /** The limit getBroadcastHistory uses when its caller gives none. */
  const DefaultHistoryLimit := 50

  class Store {
    var jobs: map<string, Keys>
    var active: set<string>
    var history: seq<string>

    constructor ()
      ensures jobs == map[] && active == {} && history == []
    {
      jobs, active, history := map[], {}, [];
    }

    function Job(id: string): Keys
      reads this
    {
      JobOf(jobs, id)
    }

    /** enqueueBroadcast. The id is the decimal text of the first clock
        reading; startTime is a second reading. */
    method EnqueueBroadcast(fids: seq<int>, message: Message, idClock: nat, startClock: int)
      returns (id: string)
      modifies this
      ensures id == NatToString(idClock)
      ensures jobs == old(jobs)[id := AfterEnqueue(JobOf(old(jobs), id), fids, message, startClock)]
      ensures active == old(active) + {id}
      ensures history == [id] + old(history)
    {
      id := NatToString(idClock);
      var k := Job(id);
      k := k.(message := Some(message));
      if |fids| > 0 {
        k := k.(pending := LPush(k.pending, fids));
      }
      k := k.(stats := Stats(true, |fids|, 0, 0, |fids|, 0, 0, startClock, k.stats.endTime, k.stats.duration));
      jobs := jobs[id := k];
      active := active + {id};
      history := [id] + history;
    }

    function GetBroadcastStatus(id: string): Option<Status>
      reads this
    {
      StatusOf(Job(id).stats)
    }

    method MarkSuccess(id: string, fid: int)
      modifies this
      ensures jobs == old(jobs)[id := AfterSuccess(old(Job(id)), fid)]
      ensures active == old(active) && history == old(history)
    {
      var r := AfterSuccess(Job(id), fid);
      jobs := jobs[id := r];
    }

    method MarkFailed(id: string, fid: int, error: string)
      modifies this
      ensures jobs == old(jobs)[id := AfterFailure(old(Job(id)), fid, error)]
      ensures active == old(active) && history == old(history)
    {
      var r := AfterFailure(Job(id), fid, error);
      jobs := jobs[id := r];
    }

    method GetNextFID(id: string) returns (fid: Option<int>)
      modifies this
      ensures fid == Popped(old(Job(id)))
      ensures fid.None? ==> jobs == old(jobs)
      ensures fid.Some? ==> jobs == old(jobs)[id := AfterPop(old(Job(id)))]
      ensures active == old(active) && history == old(history)
    {
      var k := Job(id);
      if k.pending == [] {
        return None;
      }
      var f := k.pending[|k.pending| - 1];
      k := k.(pending := k.pending[..|k.pending| - 1]);
      k := k.(processing := k.processing + {f});
      k := k.(stats := k.stats.(written := true, processing := k.stats.processing + 1));
      jobs := jobs[id := k];
      fid := Some(f);
    }

    method RemoveFromProcessing(id: string, fid: int)
      modifies this
      ensures jobs == old(jobs)[id := AfterRemove(old(Job(id)), fid)]
      ensures active == old(active) && history == old(history)
    {
      jobs := jobs[id := AfterRemove(Job(id), fid)];
    }

    /** completeBroadcast: a no-op without stats; otherwise stamps the end
        time and duration and leaves the active set. History and the
        per-fid records stay. */
    method CompleteBroadcast(id: string, now: int)
      modifies this
      ensures !old(Job(id)).stats.written ==> jobs == old(jobs) && active == old(active)
      ensures old(Job(id)).stats.written ==>
                jobs == old(jobs)[id := AfterComplete(old(Job(id)), now)]
                && active == old(active) - {id}
      ensures history == old(history)
    {
      var status := GetBroadcastStatus(id);
      if status.None? {
        return;
      }
      var endTime := now;
      var duration := endTime - status.value.startTime;
      var k := Job(id);
      jobs := jobs[id := k.(stats := k.stats.(endTime := Some(endTime), duration := Some(duration)))];
      active := active - {id};
    }

    /** getFailedFIDs: the entries of the failed hash, each once, in the
        order Object.entries lists them, each with its stored error. */
    method GetFailedFIDs(id: string) returns (entries: seq<FailedEntry>)
      ensures IsEnumeration(FidsOf(entries), Job(id).failed.Keys)
      ensures InPropertyOrder(FidsOf(entries))
      ensures |entries| == |Job(id).failed|
      ensures forall i :: 0 <= i < |entries| ==>
                entries[i].fid in Job(id).failed && entries[i].error == Job(id).failed[entries[i].fid]
    {
      var failed := Job(id).failed;
      var fids := EnumerateFids(failed.Keys);
      EnumerationLength(fids, failed.Keys);
      entries := seq(|fids|, i requires 0 <= i < |fids| => FailedEntry(fids[i], failed[fids[i]]));
      assert FidsOf(entries) == fids;
    }

    /** retryFailed: returns 0 and changes nothing when no fid failed;
        otherwise re-enqueues exactly the failed fids and reactivates. */
    method RetryFailed(id: string) returns (n: nat)
      modifies this
      ensures n == |old(Job(id)).failed|
      ensures n == 0 ==> jobs == old(jobs) && active == old(active)
      ensures n > 0 ==>
                && (exists order :: IsEnumeration(order, old(Job(id)).failed.Keys) && InPropertyOrder(order)
                                    && jobs == old(jobs)[id := AfterRetry(old(Job(id)), order)])
                && active == old(active) + {id}
      ensures Job(id).failed == map[]
      ensures history == old(history)
    {
      var entries := GetFailedFIDs(id);
      if |entries| == 0 {
        assert Job(id).failed.Keys == {};
        return 0;
      }
      var fids := FidsOf(entries);
      var k := Job(id);
      jobs := jobs[id := AfterRetry(k, fids)];
      active := active + {id};
      n := |fids|;
      assert Job(id) == AfterRetry(k, fids);
    }

    function GetBroadcastMessage(id: string): Option<Message>
      reads this
    {
      Job(id).message
    }

    /** getBroadcastHistory(limit) = LRANGE history 0 (limit - 1): the newest
        `limit` ids for a positive limit; a limit of 0 makes the stop index
        -1, which Redis reads as the whole list. */
    function GetBroadcastHistory(limit: int): (ids: seq<string>)
      reads this
      ensures limit > 0 ==> ids == history[..if limit < |history| then limit else |history|]
      ensures limit <= 0 ==> ids == history[..if |history| + limit > 0 then |history| + limit else 0]
    {
      LRange(history, 0, limit - 1)
    }

    predicate IsBroadcastActive(id: string)
      reads this
    {
      id in active
    }
  }

  /** Retrying twice with no worker run between: the second call finds
      nothing to retry and changes nothing. */
  method RetryTwice(store: Store, id: string) returns (first: nat, second: nat)
    modifies store
    ensures first == |old(store.Job(id)).failed|
    ensures second == 0
  {
    first := store.RetryFailed(id);
    ghost var between := store.jobs;
    second := store.RetryFailed(id);
    assert store.jobs == between;
  }
}
