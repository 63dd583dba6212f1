/** The start route: validate the message, collect the distinct fids of the
    stored constellation records, refuse an empty audience, and enqueue. */
module StartRoute {
  import opened Common
  import opened BroadcastQueue

  /** The message as it arrives in the body; a field is None when absent. */
  datatype MessageInput = MessageInput(title: Option<string>, body: Option<string>, targetUrl: Option<string>)

  datatype Response =
    | Started(broadcastId: string, totalUsers: nat)
    | Error(status: int, error: string)

  /** A field is truthy when it is present and not "". */
  predicate Present(f: Option<string>) {
    f.Some? && f.value != ""
  }

  /** The guard of the route: the message and its three fields must all be
      present and non-empty. */
  predicate ValidMessage(m: Option<MessageInput>) {
    m.Some? && Present(m.value.title) && Present(m.value.body) && Present(m.value.targetUrl)
  }

  /** The fid a record contributes: its fid field, when truthy, read with
      parseInt. */
  function RecordFid(fid: Option<string>): Option<int> {
    if Present(fid) then ParseInt(fid.value) else None
  }

  /** The values the Set receives, in the order the records are visited,
      with repeats and none for records without a usable fid. */
  function Collected(records: seq<Option<string>>): (r: seq<int>)
    ensures |r| <= |records|
  {
    if records == [] then []
    else
      var init := Collected(records[..|records| - 1]);
      match RecordFid(records[|records| - 1])
      case None => init
      case Some(f) => init + [f]
  }

  /** Array.from(new Set(xs)): each value once, at the place it was first
      added. */
  function Distinct(xs: seq<int>): seq<int> {
    if xs == [] then []
    else
      var init := Distinct(xs[..|xs| - 1]);
      var x := xs[|xs| - 1];
      if x in init then init else init + [x]
  }

  /** The distinct list holds every collected value once and nothing else. */
  lemma {:induction false} DistinctIsEnumeration(xs: seq<int>)
    ensures IsEnumeration(Distinct(xs), set x | x in xs)
    ensures |Distinct(xs)| <= |xs|
  {
    if xs != [] {
      var init, x := xs[..|xs| - 1], xs[|xs| - 1];
      assert xs == init + [x];
      DistinctIsEnumeration(init);
      var d := Distinct(init);
      if x !in d {
        assert NoDuplicates(d + [x]) by {
          forall i, j | 0 <= i < j < |d + [x]| ensures (d + [x])[i] != (d + [x])[j] {
            if j == |d| { assert (d + [x])[i] == d[i]; assert d[i] in d; }
          }
        }
      }
    }
  }

  /** A list without repeats comes out as it went in, order included. */
  lemma {:induction false} DistinctKeepsOrder(xs: seq<int>)
    requires NoDuplicates(xs)
    ensures Distinct(xs) == xs
  {
    if xs != [] {
      var init, x := xs[..|xs| - 1], xs[|xs| - 1];
      assert NoDuplicates(init) by {
        forall i, j | 0 <= i < j < |init| ensures init[i] != init[j] { assert init[i] == xs[i] && init[j] == xs[j]; }
      }
      DistinctKeepsOrder(init);
      assert x !in init by {
        forall i | 0 <= i < |init| ensures init[i] != x { assert init[i] == xs[i]; }
      }
    }
  }

  /** The recipients: the distinct fids of the records, first seen first. */
  function Recipients(records: seq<Option<string>>): seq<int> {
    Distinct(Collected(records))
  }

  /** One more value: appended when it was not collected before. */
  lemma DistinctAppend(xs: seq<int>, x: int)
    ensures x in Distinct(xs) <==> x in xs
    ensures Distinct(xs + [x]) == if x in xs then Distinct(xs) else Distinct(xs) + [x]
  {
    assert (xs + [x])[..|xs|] == xs;
    DistinctIsEnumeration(xs);
  }

  /** One more record: its fid, if it has a usable one, is collected. */
  lemma CollectedAppend(records: seq<Option<string>>, i: nat)
    requires i < |records|
    ensures Collected(records[..i + 1])
            == Collected(records[..i]) + (if RecordFid(records[i]).Some? then [RecordFid(records[i]).value] else [])
  {
    assert records[..i + 1][..i] == records[..i];
  }

  /** The loop over the records adding each truthy fid to a Set, then
      Array.from. */
  method CollectRecipients(records: seq<Option<string>>) returns (fids: seq<int>)
    ensures fids == Recipients(records)
  {
    fids := [];
    var seen: set<int> := {};
    ghost var collected: seq<int> := [];
    for i := 0 to |records|
      invariant collected == Collected(records[..i])
      invariant fids == Distinct(collected)
      invariant forall x :: x in seen <==> x in fids
    {
      CollectedAppend(records, i);
      var fid := RecordFid(records[i]);
      if fid.Some? {
        DistinctAppend(collected, fid.value);
        if fid.value !in seen {
          fids := fids + [fid.value];
          seen := seen + {fid.value};
        }
        collected := collected + [fid.value];
      }
    }
    assert records[..|records|] == records;
  }

  /** The recipients are exactly the parsed fids of the records, each once. */
  lemma RecipientsAreTheRecordFids(records: seq<Option<string>>)
    ensures IsEnumeration(Recipients(records), set x | x in Collected(records))
    ensures forall f :: f in Recipients(records) <==>
              exists i :: 0 <= i < |records| && RecordFid(records[i]) == Some(f)
  {
    DistinctIsEnumeration(Collected(records));
    CollectedMembers(records);
  }

  lemma {:induction false} CollectedMembers(records: seq<Option<string>>)
    ensures forall f :: f in Collected(records) <==>
              exists i :: 0 <= i < |records| && RecordFid(records[i]) == Some(f)
  {
    if records != [] {
      var init := records[..|records| - 1];
      CollectedMembers(init);
      forall f | exists i :: 0 <= i < |records| && RecordFid(records[i]) == Some(f)
        ensures f in Collected(records)
      {
        var i :| 0 <= i < |records| && RecordFid(records[i]) == Some(f);
        if i < |records| - 1 {
          assert init[i] == records[i];
        }
      }
      forall f | f in Collected(records)
        ensures exists i :: 0 <= i < |records| && RecordFid(records[i]) == Some(f)
      {
        if f in Collected(init) {
          var i :| 0 <= i < |init| && RecordFid(init[i]) == Some(f);
          assert records[i] == init[i];
        } else {
          assert RecordFid(records[|records| - 1]) == Some(f);
        }
      }
    }
  }

  /** The answer, given the recipients found. */
  function Answer(m: Option<MessageInput>, recipients: seq<int>, idClock: nat): (r: Response)
    ensures r.Error? <==> !ValidMessage(m) || recipients == []
    ensures !ValidMessage(m) ==> r == Error(400, "Missing required message fields")
    ensures ValidMessage(m) && recipients == [] ==> r == Error(400, "No users found")
    ensures r.Started? ==> r.broadcastId == NatToString(idClock) && r.totalUsers == |recipients|
  {
    if !ValidMessage(m) then Error(400, "Missing required message fields")
    else if recipients == [] then Error(400, "No users found")
    else Started(NatToString(idClock), |recipients|)
  }

  /** POST: the body's message only (testFids and anything else in the body
      are not read); the records are the fid fields of the constellation
      hashes in the order the store lists their keys. */
  method Post(store: Store, m: Option<MessageInput>, records: seq<Option<string>>,
              idClock: nat, startClock: int)
    returns (r: Response)
    modifies store
    ensures r == Answer(m, Recipients(records), idClock)
    ensures r.Error? ==> store.jobs == old(store.jobs) && store.active == old(store.active)
                         && store.history == old(store.history)
    ensures r.Started? ==>
              var msg := Message(m.value.title.value, m.value.body.value, m.value.targetUrl.value);
              && store.jobs == old(store.jobs)[r.broadcastId :=
                   AfterEnqueue(JobOf(old(store.jobs), r.broadcastId), Recipients(records), msg, startClock)]
              && store.active == old(store.active) + {r.broadcastId}
              && store.history == [r.broadcastId] + old(store.history)
  {
    if !ValidMessage(m) {
      return Error(400, "Missing required message fields");
    }
    var uniqueFids := CollectRecipients(records);
    if |uniqueFids| == 0 {
      return Error(400, "No users found");
    }
    var msg := Message(m.value.title.value, m.value.body.value, m.value.targetUrl.value);
    var broadcastId := store.EnqueueBroadcast(uniqueFids, msg, idClock, startClock);
    r := Started(broadcastId, |uniqueFids|);
  }
}
