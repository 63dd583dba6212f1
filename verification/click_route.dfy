/** The click-tracking route: the client posts the notif value from the
    tracking link and the fid; the broadcast id is the part of the notif
    value before its first '_', and the click is recorded under the fid
    the request names. */
module ClickRoute {
  import opened Common
  import opened BroadcastQueue
  import opened BroadcastAnalytics
  import WorkerRoute

  /** The fid field of a JSON body: absent (or null), a number, or a text. */
  datatype FidParam = Absent | Number(n: int) | Text(s: string)

  /** The click body: only notifId and fid are read. */
  datatype ClickBody = ClickBody(notifId: Option<string>, fid: FidParam)

  datatype Response =
    | Tracked(broadcastId: string, fid: FidParam)
    | Error(status: int, error: string)

  /** JavaScript falsiness of the two fields: absent, "", or the number 0. */
  predicate MissingParams(b: ClickBody) {
    || b.notifId.None? || b.notifId.value == ""
    || b.fid.Absent? || b.fid == Number(0) || b.fid == Text("")
  }

  /** parseInt(fid): a number is first turned into its decimal text. */
  function FidValue(p: FidParam): Option<int> {
    match p
    case Absent => None
    case Number(n) => ParseInt(IntToString(n))
    case Text(s) => ParseInt(s)
  }

  /** A numeric fid reads as itself. */
  lemma NumberFidValue(n: int)
    ensures FidValue(Number(n)) == Some(n)
  {
    ParseIntOfIntToString(n);
  }

  /** notifId.split('_')[0] when the split has at least two parts, that
      is when the text holds a '_'; None otherwise. */
  function ParseNotifId(s: string): (r: Option<string>)
    ensures r.Some? <==> '_' in s
    ensures r.Some? ==> |r.value| < |s| && s[..|r.value|] == r.value && s[|r.value|] == '_'
    ensures r.Some? ==> '_' !in r.value
  {
    if s == [] then None
    else if s[0] == '_' then Some("")
    else match ParseNotifId(s[1..])
      case None => None
      case Some(rest) => Some([s[0]] + rest)
  }

  /** The prefix ParseNotifId returns is the only one its contract allows:
      whatever text without '_' is followed by '_' in s is that prefix. */
  lemma {:induction false} ParseNotifIdUnique(s: string, p: string)
    requires |p| < |s| && s[..|p|] == p && s[|p|] == '_' && '_' !in p
    ensures ParseNotifId(s) == Some(p)
  {
    if p != [] {
      assert s[0] == p[0];
      assert p[1..] == s[1..][..|p| - 1];
      assert '_' !in p[1..] by {
        forall i | 0 <= i < |p| - 1 ensures p[1..][i] != '_' { assert p[1..][i] == p[i + 1]; }
      }
      ParseNotifIdUnique(s[1..], p[1..]);
      assert [s[0]] + p[1..] == p;
    }
  }

  /** The notif value the worker puts in a tracking link parses back to its
      broadcast id whenever the id has no '_'. */
  lemma NotifIdRoundTrip(id: string, fid: int)
    requires '_' !in id
    ensures ParseNotifId(WorkerRoute.NotifId(id, fid)) == Some(id)
  {
    var s := WorkerRoute.NotifId(id, fid);
    assert s[..|id|] == id && s[|id|] == '_';
    ParseNotifIdUnique(s, id);
  }

  /** Broadcast ids are decimal texts, so every link the worker builds for
      a broadcast leads the click back to that broadcast: the link ends in
      notif=<value> and the value parses to the id. */
  lemma TrackingLinkLeadsBack(idClock: nat, targetUrl: string, fid: int)
    ensures var id := NatToString(idClock);
            var url := WorkerRoute.TrackingUrl(targetUrl, id, fid);
            var value := url[|targetUrl| + 1 + |"notif="|..];
            && value == WorkerRoute.NotifId(id, fid)
            && ParseNotifId(value) == Some(id)
  {
    var id := NatToString(idClock);
    WorkerRoute.TrackingUrlShape(targetUrl, id, fid);
    var url := WorkerRoute.TrackingUrl(targetUrl, id, fid);
    assert url[|targetUrl| + 1..][|"notif="|..] == url[|targetUrl| + 1 + |"notif="|..];
    assert '_' !in id by {
      forall i | 0 <= i < |id| ensures id[i] != '_' { assert IsDigit(id[i]); }
    }
    NotifIdRoundTrip(id, fid);
  }

  /** The answer of the route, apart from the store write. */
  function Answer(b: ClickBody): (r: Response)
    ensures r.Error? <==> MissingParams(b) || '_' !in b.notifId.value
    ensures r.Error? ==> r.status == 400
    ensures MissingParams(b) ==> r == Error(400, "Missing parameters")
    ensures r.Tracked? ==> Some(r.broadcastId) == ParseNotifId(b.notifId.value) && r.fid == b.fid
  {
    if MissingParams(b) then Error(400, "Missing parameters")
    else match ParseNotifId(b.notifId.value)
      case None => Error(400, "Invalid notification ID format")
      case Some(broadcastId) => Tracked(broadcastId, b.fid)
  }

  /** POST: validate, split, record the click for parseInt(fid) under the
      broadcast named by the notif value, and echo the two. */
  method Post(store: Store, b: ClickBody, now: int) returns (r: Response)
    modifies store
    ensures r == Answer(b)
    ensures r.Error? ==> store.jobs == old(store.jobs)
    ensures r.Tracked? ==>
              store.jobs == old(store.jobs)[r.broadcastId :=
                AfterClick(old(store.Job(r.broadcastId)), FidText(FidValue(b.fid)), now)]
    ensures store.active == old(store.active) && store.history == old(store.history)
  {
    if MissingParams(b) {
      return Error(400, "Missing parameters");
    }
    var parts := ParseNotifId(b.notifId.value);
    if parts.None? {
      return Error(400, "Invalid notification ID format");
    }
    var broadcastId := parts.value;
    TrackNotificationClick(store, broadcastId, FidValue(b.fid), now);
    r := Tracked(broadcastId, b.fid);
  }
}
