/** lib/broadcast-analytics.ts: click recording, the engagement funnel, the
    error breakdown, the click-timing distribution and the CSV exports, over
    the same in-memory store as the queue. The clock is a parameter, and so
    is the date formatter of the click export. */
module BroadcastAnalytics {
  import opened Common
  import opened BroadcastQueue

  // ---------------------------------------------------------------------
  // Click recording
  // ---------------------------------------------------------------------

  /** The text a number becomes as a hash field: its decimal form, or "NaN"
      when the click carried no parsable fid. It reads back as the fid. */
  function FidText(fid: Option<int>): string {
    match fid
    case None => "NaN"
    case Some(n) => IntToString(n)
  }

  /** The field text reads back, with parseInt, as the fid it was written
      for, and NaN as NaN. */
  lemma FidTextReadsBack(fid: Option<int>)
    ensures ParseInt(FidText(fid)) == fid
  {
    if fid.Some? {
      ParseIntOfIntToString(fid.value);
    } else {
      NoLeadingDigit("NaN");
    }
  }

  /** HSET clicks field now, then HINCRBY stats clicks 1. Only the latest
      time per field is kept; the counter moves on every call, and the
      stats hash exists afterwards even if it did not before. */
  function AfterClick(k: Keys, field: string, now: int): (r: Keys)
    ensures r.clicks.Keys == k.clicks.Keys + {field} && r.clicks[field] == now
    ensures forall f :: f in k.clicks && f != field ==> r.clicks[f] == k.clicks[f]
    ensures r.stats.clicks == k.stats.clicks + 1 && r.stats.written
    ensures r.stats.(written := k.stats.written, clicks := k.stats.clicks) == k.stats
    ensures Balanced(r.stats) == Balanced(k.stats)
    ensures r.(clicks := k.clicks, stats := k.stats) == k
  {
    k.(clicks := k.clicks[field := now], stats := k.stats.(written := true, clicks := k.stats.clicks + 1))
  }

  /** Two clicks on the same notification: one entry holding the later
      time, and a click count two higher. */
  lemma RepeatedClick(k: Keys, field: string, t1: int, t2: int)
    ensures AfterClick(AfterClick(k, field, t1), field, t2).clicks == AfterClick(k, field, t2).clicks
    ensures AfterClick(AfterClick(k, field, t1), field, t2).stats.clicks == k.stats.clicks + 2
  {
    assert AfterClick(AfterClick(k, field, t1), field, t2).clicks == k.clicks[field := t2];
  }

  /** trackNotificationClick. The HSET of the click time and the HINCRBY of
      the click counter are applied together, as one step. */
  method TrackNotificationClick(store: Store, id: string, fid: Option<int>, now: int)
    modifies store
    ensures store.jobs == old(store.jobs)[id := AfterClick(old(store.Job(id)), FidText(fid), now)]
    ensures store.active == old(store.active) && store.history == old(store.history)
  {
    store.jobs := store.jobs[id := AfterClick(store.Job(id), FidText(fid), now)];
  }

  // ---------------------------------------------------------------------
  // Engagement funnel
  // ---------------------------------------------------------------------

  datatype Funnel = Funnel(
    sent: int, delivered: int, opens: int, clicked: int,
    deliveryRate: real, clickRate: real, ctr: real)

  /** part / whole * 100, or 0 when whole is not positive. */
  function Percent(part: int, whole: int): (r: real)
    ensures whole > 0 ==> r * whole as real == 100.0 * part as real
    ensures whole <= 0 ==> r == 0.0
  {
    if whole > 0 then part as real / whole as real * 100.0 else 0.0
  }

  /** getEngagementFunnel on the stats hash it reads (`opens` is the
      `opened` field). */
  function EngagementFunnel(s: Stats): (f: Funnel) {
    Funnel(s.total, s.sent, 0, s.clicks,
           Percent(s.sent, s.total), Percent(s.clicks, s.sent), Percent(s.clicks, s.total))
  }

  /** The funnel's fields and rates: the `sent` field reports the total,
      delivered is the sent counter, nothing is ever counted as opened;
      every rate is 0 when its denominator is 0, the delivery rate stays
      within [0, 100] on consistent counters, the click-through rate is the
      product of the other two, and the click rate can exceed 100 because
      every click is counted, not every clicking user. */
  lemma FunnelRates(s: Stats)
    ensures EngagementFunnel(s).sent == s.total && EngagementFunnel(s).delivered == s.sent
    ensures EngagementFunnel(s).opens == 0 && EngagementFunnel(s).clicked == s.clicks
    ensures s.total <= 0 ==> EngagementFunnel(s).deliveryRate == 0.0 && EngagementFunnel(s).ctr == 0.0
    ensures s.sent <= 0 ==> EngagementFunnel(s).clickRate == 0.0
    ensures 0 <= s.sent <= s.total ==> 0.0 <= EngagementFunnel(s).deliveryRate <= 100.0
    ensures s.total > 0 && s.sent > 0 ==>
              EngagementFunnel(s).ctr * 100.0 == EngagementFunnel(s).clickRate * EngagementFunnel(s).deliveryRate
    ensures s.sent > 0 && s.clicks > s.sent ==> EngagementFunnel(s).clickRate > 100.0
  {
    if 0 < s.total && 0 <= s.sent <= s.total {
      RateAtMostHundred(s.sent, s.total);
    }
    if s.total > 0 && s.sent > 0 {
      RatesMultiply(s.clicks, s.sent, s.total);
    }
    if s.sent > 0 && s.clicks > s.sent {
      QuotientAboveOne(s.clicks as real, s.sent as real);
    }
  }

  lemma RateAtMostHundred(part: int, whole: int)
    requires 0 <= part <= whole && 0 < whole
    ensures 0.0 <= Percent(part, whole) <= 100.0
  {
    var r := Percent(part, whole);
    assert r * whole as real <= 100.0 * whole as real;
  }

  lemma RatesMultiply(clicks: int, sent: int, total: int)
    requires total > 0 && sent > 0
    ensures Percent(clicks, total) * 100.0 == Percent(clicks, sent) * Percent(sent, total)
  {
    var t, d, c := total as real, sent as real, clicks as real;
    assert Percent(sent, total) == d / t * 100.0;
    assert Percent(clicks, sent) == c / d * 100.0;
    assert Percent(clicks, total) == c / t * 100.0;
    assert (c / d * 100.0) * (d / t * 100.0) == (c / t * 100.0) * 100.0;
  }

  lemma QuotientAboveOne(c: real, d: real)
    requires 0.0 < d < c
    ensures c / d * 100.0 > 100.0
  {
    var q := c / d;
    assert q * d == c;
  }

  // ---------------------------------------------------------------------
  // Error classification and breakdown
  // ---------------------------------------------------------------------

  /** The error categories. The source keys the breakdown record by their
      display names ('Rate Limit', 'Timeout', 'Invalid FID', 'User Blocked',
      'Server Error', 'Other'), one name per category. */
  datatype Category = RateLimit | Timeout | InvalidFid | UserBlocked | ServerError | Other

  /** The substrings that select each category. */
  function Patterns(c: Category): seq<string> {
    match c
    case RateLimit => ["429", "rate limit"]
    case Timeout => ["timeout", "TIMEOUT"]
    case InvalidFid => ["400", "invalid"]
    case UserBlocked => ["403", "blocked"]
    case ServerError => ["500", "502", "503"]
    case Other => []
  }

  /** Position of a category among the tests; Other comes last. */
  function Rank(c: Category): nat {
    match c
    case RateLimit => 0
    case Timeout => 1
    case InvalidFid => 2
    case UserBlocked => 3
    case ServerError => 4
    case Other => 5
  }

  predicate Matches(error: string, c: Category) {
    exists p :: p in Patterns(c) && Contains(error, p)
  }

  /** The category of one error text. */
  function Classify(error: string): Category {
    if Contains(error, "429") || Contains(error, "rate limit") then RateLimit
    else if Contains(error, "timeout") || Contains(error, "TIMEOUT") then Timeout
    else if Contains(error, "400") || Contains(error, "invalid") then InvalidFid
    else if Contains(error, "403") || Contains(error, "blocked") then UserBlocked
    else if Contains(error, "500") || Contains(error, "502") || Contains(error, "503") then ServerError
    else Other
  }

  /** The category chosen is the first, in the order of Rank, one of whose
      substrings occurs in the text; Other when none does. */
  lemma ClassifyMatches(error: string)
    ensures Classify(error) != Other ==> Matches(error, Classify(error))
    ensures forall d :: Rank(d) < Rank(Classify(error)) ==> !Matches(error, d)
  {
  }

  /** The converse: a category that matches while no earlier one does is
      the one chosen, so the classification is exactly first-match. */
  lemma ClassifyIsFirstMatch(error: string, c: Category)
    requires c != Other ==> Matches(error, c)
    requires forall d :: Rank(d) < Rank(c) ==> !Matches(error, d)
    ensures Classify(error) == c
  {
    var r := Classify(error);
    ClassifyMatches(error);
    assert Rank(r) == Rank(c);
  }

  /** The failed fids, among those listed in xs, whose error falls in c. */
  ghost function FailedIn(xs: seq<int>, failed: map<int, string>, c: Category): set<int> {
    set f | f in xs && f in failed && Classify(failed[f]) == c
  }

  /** The failed fids whose error falls in c. */
  ghost function FailedWith(failed: map<int, string>, c: Category): set<int> {
    set f | f in failed && Classify(failed[f]) == c
  }

  function Count(breakdown: map<Category, nat>, c: Category): nat {
    if c in breakdown then breakdown[c] else 0
  }

  /** The sum of all entries of a breakdown. */
  function Total(breakdown: map<Category, nat>): nat {
    Count(breakdown, RateLimit) + Count(breakdown, Timeout) + Count(breakdown, InvalidFid)
    + Count(breakdown, UserBlocked) + Count(breakdown, ServerError) + Count(breakdown, Other)
  }

  /** Adding one to the entry of c. */
  lemma CountAdd(breakdown: map<Category, nat>, c: Category)
    ensures var b' := breakdown[c := Count(breakdown, c) + 1];
            && (forall d :: Count(b', d) == Count(breakdown, d) + (if d == c then 1 else 0))
            && (forall d :: d in b' <==> d in breakdown || d == c)
            && Total(b') == Total(breakdown) + 1
  {
    var b' := breakdown[c := Count(breakdown, c) + 1];
    match c
    case RateLimit => assert Count(b', RateLimit) == Count(breakdown, RateLimit) + 1;
    case Timeout => assert Count(b', Timeout) == Count(breakdown, Timeout) + 1;
    case InvalidFid => assert Count(b', InvalidFid) == Count(breakdown, InvalidFid) + 1;
    case UserBlocked => assert Count(b', UserBlocked) == Count(breakdown, UserBlocked) + 1;
    case ServerError => assert Count(b', ServerError) == Count(breakdown, ServerError) + 1;
    case Other => assert Count(b', Other) == Count(breakdown, Other) + 1;
  }

  /** The breakdown after visiting the failed fids xs in order. */
  function BreakdownOf(xs: seq<int>, failed: map<int, string>): map<Category, nat>
    requires forall f :: f in xs ==> f in failed
  {
    if xs == [] then map[]
    else
      var x := xs[|xs| - 1];
      assert x in xs;
      var b := BreakdownOf(xs[..|xs| - 1], failed);
      var c := Classify(failed[x]);
      b[c := Count(b, c) + 1]
  }

  /** One more listed fid adds one to its own category and nothing to the
      others. */
  lemma FailedInStep(init: seq<int>, x: int, failed: map<int, string>)
    requires x !in init && x in failed
    ensures forall c :: |FailedIn(init + [x], failed, c)|
                        == |FailedIn(init, failed, c)| + (if Classify(failed[x]) == c then 1 else 0)
  {
    forall c ensures |FailedIn(init + [x], failed, c)|
                     == |FailedIn(init, failed, c)| + (if Classify(failed[x]) == c then 1 else 0)
    {
      if Classify(failed[x]) == c {
        assert FailedIn(init + [x], failed, c) == FailedIn(init, failed, c) + {x};
      } else {
        assert FailedIn(init + [x], failed, c) == FailedIn(init, failed, c);
      }
    }
  }

  /** The breakdown of the listed fids counts each category's fids, holds
      exactly the categories that occur, and adds up to the number listed. */
  lemma {:induction false} BreakdownCounts(xs: seq<int>, failed: map<int, string>)
    requires NoDuplicates(xs) && forall f :: f in xs ==> f in failed
    ensures forall c :: Count(BreakdownOf(xs, failed), c) == |FailedIn(xs, failed, c)|
    ensures forall c :: c in BreakdownOf(xs, failed) <==> FailedIn(xs, failed, c) != {}
    ensures Total(BreakdownOf(xs, failed)) == |xs|
  {
    if xs != [] {
      var init, x := xs[..|xs| - 1], xs[|xs| - 1];
      assert xs == init + [x];
      assert NoDuplicates(init) && x !in init by {
        assert forall i :: 0 <= i < |init| ==> init[i] == xs[i];
      }
      BreakdownCounts(init, failed);
      FailedInStep(init, x, failed);
      CountAdd(BreakdownOf(init, failed), Classify(failed[x]));
    }
  }

  /** The breakdown over an enumeration of all failed fids counts every
      failed fid, whatever the order of the enumeration. */
  lemma BreakdownOfAll(fids: seq<int>, failed: map<int, string>)
    requires IsEnumeration(fids, failed.Keys)
    ensures forall c :: c in BreakdownOf(fids, failed) <==> FailedWith(failed, c) != {}
    ensures forall c :: Count(BreakdownOf(fids, failed), c) == |FailedWith(failed, c)|
    ensures Total(BreakdownOf(fids, failed)) == |failed|
  {
    BreakdownCounts(fids, failed);
    EnumerationLength(fids, failed.Keys);
    forall c ensures FailedIn(fids, failed, c) == FailedWith(failed, c) {
    }
  }

  /** getErrorBreakdown: each category present with the number of failed
      fids whose error falls in it, categories with none absent, and the
      counts adding up to the number of failed fids. */
  method GetErrorBreakdown(store: Store, id: string) returns (breakdown: map<Category, nat>)
    ensures forall c :: c in breakdown <==> FailedWith(store.Job(id).failed, c) != {}
    ensures forall c :: Count(breakdown, c) == |FailedWith(store.Job(id).failed, c)|
    ensures Total(breakdown) == |store.Job(id).failed|
  {
    var failed := store.Job(id).failed;
    var fids := EnumerateFids(failed.Keys);
    breakdown := map[];
    for i := 0 to |fids|
      invariant breakdown == BreakdownOf(fids[..i], failed)
    {
      assert fids[..i + 1][..i] == fids[..i];
      var category := Classify(failed[fids[i]]);
      breakdown := breakdown[category := Count(breakdown, category) + 1];
    }
    assert fids[..|fids|] == fids;
    BreakdownOfAll(fids, failed);
  }

  // ---------------------------------------------------------------------
  // Click timing
  // ---------------------------------------------------------------------

  datatype Bucket = Under1Min | Between1And5Min | Between5And30Min | Over30Min

  /** The bucket of a delay in milliseconds, compared in minutes. */
  function BucketOf(diff: int): Bucket {
    var minutes := diff as real / 1000.0 / 60.0;
    if minutes < 1.0 then Under1Min
    else if minutes < 5.0 then Between1And5Min
    else if minutes < 30.0 then Between5And30Min
    else Over30Min
  }

  /** Every delay falls in exactly one bucket, and the minute thresholds
      fall on whole milliseconds. */
  lemma BucketThresholds(diff: int)
    ensures BucketOf(diff) == Under1Min <==> diff < 60000
    ensures BucketOf(diff) == Between1And5Min <==> 60000 <= diff < 300000
    ensures BucketOf(diff) == Between5And30Min <==> 300000 <= diff < 1800000
    ensures BucketOf(diff) == Over30Min <==> 1800000 <= diff
  {
  }

  datatype Timing = Timing(
    avgTimeToClick: real,
    under1Min: nat, between1And5Min: nat, between5And30Min: nat, over30Min: nat)

  function BucketCount(t: Timing, b: Bucket): nat {
    match b
    case Under1Min => t.under1Min
    case Between1And5Min => t.between1And5Min
    case Between5And30Min => t.between5And30Min
    case Over30Min => t.over30Min
  }

  /** The running totals of getClickTiming: the summed delay and the four
      bucket counters. */
  datatype Tally = Tally(
    totalTime: int, under1Min: nat, between1And5Min: nat, between5And30Min: nat, over30Min: nat)

  function Inc(n: nat, b: Bucket, c: Bucket): nat {
    if b == c then n + 1 else n
  }

  /** The totals after visiting the click fields xs in order. */
  function TallyClicks(xs: seq<string>, clicks: map<string, int>, start: int): Tally
    requires forall f :: f in xs ==> f in clicks
  {
    if xs == [] then Tally(0, 0, 0, 0, 0)
    else
      var t := TallyClicks(xs[..|xs| - 1], clicks, start);
      var diff := clicks[xs[|xs| - 1]] - start;
      var b := BucketOf(diff);
      Tally(t.totalTime + diff, Inc(t.under1Min, b, Under1Min), Inc(t.between1And5Min, b, Between1And5Min),
            Inc(t.between5And30Min, b, Between5And30Min), Inc(t.over30Min, b, Over30Min))
  }

  /** The click fields, among those listed in xs, whose delay falls in b. */
  ghost function ClicksIn(xs: seq<string>, clicks: map<string, int>, start: int, b: Bucket): set<string> {
    set f | f in xs && f in clicks && BucketOf(clicks[f] - start) == b
  }

  /** The click fields whose delay since the start falls in b. */
  ghost function ClicksWith(clicks: map<string, int>, start: int, b: Bucket): set<string> {
    set f | f in clicks && BucketOf(clicks[f] - start) == b
  }

  /** One more listed click adds one to its own bucket and nothing to the
      others. */
  lemma ClicksInStep(init: seq<string>, x: string, clicks: map<string, int>, start: int)
    requires x !in init && x in clicks
    ensures forall b :: |ClicksIn(init + [x], clicks, start, b)|
                        == |ClicksIn(init, clicks, start, b)| + (if BucketOf(clicks[x] - start) == b then 1 else 0)
  {
    forall b ensures |ClicksIn(init + [x], clicks, start, b)|
                     == |ClicksIn(init, clicks, start, b)| + (if BucketOf(clicks[x] - start) == b then 1 else 0)
    {
      ClicksInAppend(init, x, clicks, start, b);
    }
  }

  /** The clicks of bucket b among init + [x]: those among init, plus x when
      x falls in b. */
  lemma ClicksInAppend(init: seq<string>, x: string, clicks: map<string, int>, start: int, b: Bucket)
    requires x in clicks
    ensures ClicksIn(init + [x], clicks, start, b)
            == ClicksIn(init, clicks, start, b) + (if BucketOf(clicks[x] - start) == b then {x} else {})
  {
    var bx := BucketOf(clicks[x] - start);
    forall f ensures f in ClicksIn(init + [x], clicks, start, b)
                     <==> f in ClicksIn(init, clicks, start, b) || (f == x && bx == b)
    {
      assert f in init + [x] <==> f in init || f == x;
    }
  }

  /** Each counter of the tally counts the listed clicks of its bucket, so
      the four add up to the number of clicks visited. */
  lemma {:induction false} TallyCounts(xs: seq<string>, clicks: map<string, int>, start: int)
    requires NoDuplicates(xs) && forall f :: f in xs ==> f in clicks
    ensures TallyClicks(xs, clicks, start).under1Min == |ClicksIn(xs, clicks, start, Under1Min)|
    ensures TallyClicks(xs, clicks, start).between1And5Min == |ClicksIn(xs, clicks, start, Between1And5Min)|
    ensures TallyClicks(xs, clicks, start).between5And30Min == |ClicksIn(xs, clicks, start, Between5And30Min)|
    ensures TallyClicks(xs, clicks, start).over30Min == |ClicksIn(xs, clicks, start, Over30Min)|
    ensures var t := TallyClicks(xs, clicks, start);
            t.under1Min + t.between1And5Min + t.between5And30Min + t.over30Min == |xs|
  {
    if xs != [] {
      var init, x := xs[..|xs| - 1], xs[|xs| - 1];
      assert xs == init + [x];
      assert NoDuplicates(init) && x !in init by {
        assert forall i :: 0 <= i < |init| ==> init[i] == xs[i];
      }
      TallyCounts(init, clicks, start);
      ClicksInStep(init, x, clicks, start);
    }
  }

  /** The tally over an enumeration of all click fields puts every click in
      the bucket of its delay, whatever the order of the enumeration. */
  lemma TallyOfAll(fields: seq<string>, clicks: map<string, int>, start: int)
    requires IsEnumeration(fields, clicks.Keys)
    ensures var t := TallyClicks(fields, clicks, start);
            && t.under1Min == |ClicksWith(clicks, start, Under1Min)|
            && t.between1And5Min == |ClicksWith(clicks, start, Between1And5Min)|
            && t.between5And30Min == |ClicksWith(clicks, start, Between5And30Min)|
            && t.over30Min == |ClicksWith(clicks, start, Over30Min)|
            && t.under1Min + t.between1And5Min + t.between5And30Min + t.over30Min == |clicks|
            && |fields| == |clicks|
  {
    TallyCounts(fields, clicks, start);
    EnumerationLength(fields, clicks.Keys);
    forall b ensures ClicksIn(fields, clicks, start, b) == ClicksWith(clicks, start, b) {
    }
  }

  /** getClickTiming: every click lands in exactly one bucket by its delay
      since the broadcast started, and the average is the total delay over
      the number of clicks, or 0 without clicks. */
  method GetClickTiming(store: Store, id: string) returns (t: Timing)
    ensures forall b :: BucketCount(t, b) == |ClicksWith(store.Job(id).clicks, store.Job(id).stats.startTime, b)|
    ensures t.under1Min + t.between1And5Min + t.between5And30Min + t.over30Min == |store.Job(id).clicks|
    ensures |store.Job(id).clicks| == 0 ==> t.avgTimeToClick == 0.0
    ensures |store.Job(id).clicks| > 0 ==>
              exists order :: IsEnumeration(order, store.Job(id).clicks.Keys)
                              && t.avgTimeToClick
                                 == TallyClicks(order, store.Job(id).clicks, store.Job(id).stats.startTime).totalTime as real
                                    / |order| as real
  {
    var clicks := store.Job(id).clicks;
    var startTime := store.Job(id).stats.startTime;
    var fields := Enumerate(clicks.Keys);
    var totalTime := 0;
    var count := 0;
    var under1Min, between1And5Min, between5And30Min, over30Min := 0, 0, 0, 0;
    for i := 0 to |fields|
      invariant count == i
      invariant Tally(totalTime, under1Min, between1And5Min, between5And30Min, over30Min)
                == TallyClicks(fields[..i], clicks, startTime)
    {
      assert fields[..i + 1][..i] == fields[..i];
      var clickTime := clicks[fields[i]];
      var diff := clickTime - startTime;
      totalTime := totalTime + diff;
      count := count + 1;
      // exactly one of the four counters moves
      var b := BucketOf(diff);
      under1Min, between1And5Min := Inc(under1Min, b, Under1Min), Inc(between1And5Min, b, Between1And5Min);
      between5And30Min, over30Min := Inc(between5And30Min, b, Between5And30Min), Inc(over30Min, b, Over30Min);
    }
    assert fields[..|fields|] == fields;
    TallyOfAll(fields, clicks, startTime);
    var avg := 0.0;
    if count > 0 {
      avg := totalTime as real / count as real;
    }
    t := Timing(avg, under1Min, between1And5Min, between5And30Min, over30Min);
  }

  // ---------------------------------------------------------------------
  // Summary
  // ---------------------------------------------------------------------

  /** The stats part of the analytics record. */
  datatype Summary = Summary(
    total: int, sent: int, failed: int, clicks: int, startTime: int,
    endTime: Option<int>, duration: Option<int>)

  datatype Analytics = Analytics(
    broadcastId: string, stats: Summary, funnel: Funnel,
    errorBreakdown: map<Category, nat>, clickTiming: Timing)

  /** getBroadcastAnalytics: the counters as read (0 for a broadcast without
      stats), the funnel of those counters, and the breakdown and timing with
      the guarantees of their own functions. */
  method GetBroadcastAnalytics(store: Store, id: string) returns (a: Analytics)
    ensures var s := store.Job(id).stats;
            a.broadcastId == id
            && a.stats == Summary(s.total, s.sent, s.failed, s.clicks, s.startTime, s.endTime, s.duration)
            && a.funnel == EngagementFunnel(s)
    ensures forall c :: c in a.errorBreakdown <==> FailedWith(store.Job(id).failed, c) != {}
    ensures forall c :: Count(a.errorBreakdown, c) == |FailedWith(store.Job(id).failed, c)|
    ensures Total(a.errorBreakdown) == |store.Job(id).failed|
    ensures forall b :: BucketCount(a.clickTiming, b)
                        == |ClicksWith(store.Job(id).clicks, store.Job(id).stats.startTime, b)|
    ensures var t := a.clickTiming;
            t.under1Min + t.between1And5Min + t.between5And30Min + t.over30Min == |store.Job(id).clicks|
    ensures |store.Job(id).clicks| == 0 ==> a.clickTiming.avgTimeToClick == 0.0
    ensures |store.Job(id).clicks| > 0 ==>
              exists order :: IsEnumeration(order, store.Job(id).clicks.Keys)
                              && a.clickTiming.avgTimeToClick
                                 == TallyClicks(order, store.Job(id).clicks, store.Job(id).stats.startTime).totalTime as real
                                    / |order| as real
  {
    var s := store.Job(id).stats;
    var funnel := EngagementFunnel(s);
    var errorBreakdown := GetErrorBreakdown(store, id);
    var clickTiming := GetClickTiming(store, id);
    a := Analytics(id, Summary(s.total, s.sent, s.failed, s.clicks, s.startTime, s.endTime, s.duration),
                   funnel, errorBreakdown, clickTiming);
  }

  // ---------------------------------------------------------------------
  // CSV export
  // ---------------------------------------------------------------------

  const SuccessHeader := "FID,Status\n"
  const FailedHeader := "FID,Error\n"
  const ClicksHeader := "FID,Clicked At,Time to Click (seconds)\n"

  function SuccessRow(fid: int): string {
    IntToString(fid) + ",Success\n"
  }

  /** The error is written between double quotes as it is: quotes and line
      breaks inside it are not escaped. */
  function FailedRow(fid: int, error: string): string {
    IntToString(fid) + ",\"" + error + "\"\n"
  }

  /** Whole seconds from the start to a click, rounded down. */
  function SecondsToClick(clickTime: int, startTime: int): (q: int)
    ensures 1000 * q <= clickTime - startTime < 1000 * q + 1000
  {
    (clickTime - startTime) / 1000
  }

  function ClickRow(field: string, clickTime: int, startTime: int, formatDate: int -> string): string {
    field + "," + formatDate(clickTime) + "," + IntToString(SecondsToClick(clickTime, startTime)) + "\n"
  }

  function SuccessRows(order: seq<int>): string {
    if order == [] then "" else SuccessRows(order[..|order| - 1]) + SuccessRow(order[|order| - 1])
  }

  function FailedRows(order: seq<int>, failed: map<int, string>): string
    requires forall f :: f in order ==> f in failed
  {
    if order == [] then ""
    else FailedRows(order[..|order| - 1], failed) + FailedRow(order[|order| - 1], failed[order[|order| - 1]])
  }

  function ClickRows(order: seq<string>, clicks: map<string, int>, startTime: int, formatDate: int -> string): string
    requires forall f :: f in order ==> f in clicks
  {
    if order == [] then ""
    else ClickRows(order[..|order| - 1], clicks, startTime, formatDate)
         + ClickRow(order[|order| - 1], clicks[order[|order| - 1]], startTime, formatDate)
  }

  lemma Append3(a: string, b: string, c: string)
    ensures a + b + c == a + (b + c)
  {
  }

  /** The success branch of exportBroadcastData. */
  method ExportSucceeded(store: Store, id: string) returns (csv: string)
    ensures exists order :: IsEnumeration(order, store.Job(id).succeeded)
                            && csv == SuccessHeader + SuccessRows(order)
  {
    var succeeded := Enumerate(store.Job(id).succeeded);
    csv := SuccessHeader;
    for i := 0 to |succeeded|
      invariant csv == SuccessHeader + SuccessRows(succeeded[..i])
    {
      assert succeeded[..i + 1][..i] == succeeded[..i];
      Append3(SuccessHeader, SuccessRows(succeeded[..i]), SuccessRow(succeeded[i]));
      csv := csv + SuccessRow(succeeded[i]);
    }
    assert succeeded[..|succeeded|] == succeeded;
  }

  /** The failed branch of exportBroadcastData. */
  method ExportFailed(store: Store, id: string) returns (csv: string)
    ensures exists order :: IsEnumeration(order, store.Job(id).failed.Keys) && InPropertyOrder(order)
                            && csv == FailedHeader + FailedRows(order, store.Job(id).failed)
  {
    var failed := store.Job(id).failed;
    var fids := EnumerateFids(failed.Keys);
    csv := FailedHeader;
    for i := 0 to |fids|
      invariant csv == FailedHeader + FailedRows(fids[..i], failed)
    {
      assert fids[..i + 1][..i] == fids[..i];
      Append3(FailedHeader, FailedRows(fids[..i], failed), FailedRow(fids[i], failed[fids[i]]));
      csv := csv + FailedRow(fids[i], failed[fids[i]]);
    }
    assert fids[..|fids|] == fids;
    assert IsEnumeration(fids, store.Job(id).failed.Keys) && InPropertyOrder(fids) && csv == FailedHeader + FailedRows(fids, store.Job(id).failed);
  }

  /** The clicks branch of exportBroadcastData. */
  method ExportClicks(store: Store, id: string, formatDate: int -> string) returns (csv: string)
    ensures exists order :: IsEnumeration(order, store.Job(id).clicks.Keys)
                            && csv == ClicksHeader + ClickRows(order, store.Job(id).clicks,
                                                               store.Job(id).stats.startTime, formatDate)
  {
    var clicks := store.Job(id).clicks;
    var startTime := store.Job(id).stats.startTime;
    var fields := Enumerate(clicks.Keys);
    csv := ClicksHeader;
    for i := 0 to |fields|
      invariant csv == ClicksHeader + ClickRows(fields[..i], clicks, startTime, formatDate)
    {
      assert fields[..i + 1][..i] == fields[..i];
      var clickTime := clicks[fields[i]];
      Append3(ClicksHeader, ClickRows(fields[..i], clicks, startTime, formatDate),
              ClickRow(fields[i], clickTime, startTime, formatDate));
      csv := csv + ClickRow(fields[i], clickTime, startTime, formatDate);
    }
    assert fields[..|fields|] == fields;
    assert IsEnumeration(fields, store.Job(id).clicks.Keys)
           && csv == ClicksHeader + ClickRows(fields, store.Job(id).clicks, store.Job(id).stats.startTime, formatDate);
  }

  /** exportBroadcastData: a header and one row per member, in the order
      the store lists the succeeded set and the clicks hash and in property
      order for the failed hash; any other export kind gives the empty
      text. */
  method ExportBroadcastData(store: Store, id: string, kind: string, formatDate: int -> string)
    returns (csv: string)
    ensures kind == "success" ==>
              exists order :: IsEnumeration(order, store.Job(id).succeeded)
                              && csv == SuccessHeader + SuccessRows(order)
    ensures kind == "failed" ==>
              exists order :: IsEnumeration(order, store.Job(id).failed.Keys) && InPropertyOrder(order)
                              && csv == FailedHeader + FailedRows(order, store.Job(id).failed)
    ensures kind == "clicks" ==>
              exists order :: IsEnumeration(order, store.Job(id).clicks.Keys)
                              && csv == ClicksHeader + ClickRows(order, store.Job(id).clicks,
                                                                 store.Job(id).stats.startTime, formatDate)
    ensures kind != "success" && kind != "failed" && kind != "clicks" ==> csv == ""
  {
    csv := "";
    if kind == "success" {
      csv := ExportSucceeded(store, id);
    } else if kind == "failed" {
      csv := ExportFailed(store, id);
    } else if kind == "clicks" {
      csv := ExportClicks(store, id, formatDate);
    }
  }

  // ---------------------------------------------------------------------
  // What the exports contain
  // ---------------------------------------------------------------------

  /** Number of line breaks in a text. */
  function Lines(s: string): nat {
    multiset(s)['\n']
  }

  lemma NumberHasNoLineBreak(n: int)
    ensures Lines(IntToString(n)) == 0
  {
    assert '\n' !in IntToString(n);
  }

  lemma SuccessRowLine(fid: int)
    ensures Lines(SuccessRow(fid)) == 1
  {
    NumberHasNoLineBreak(fid);
  }

  /** Each success row starts with text that parseInt reads back as its fid. */
  lemma SuccessRowReadsBack(fid: int)
    ensures ParseInt(SuccessRow(fid)) == Some(fid)
  {
    ParseIntPrefix(fid, ",Success\n");
  }

  /** The success rows: one line per succeeded fid. */
  lemma {:induction false} SuccessRowsLines(order: seq<int>)
    ensures Lines(SuccessRows(order)) == |order|
  {
    if order != [] {
      SuccessRowsLines(order[..|order| - 1]);
      SuccessRowLine(order[|order| - 1]);
    }
  }

  /** A failed row spans one line plus one for every line break inside the
      error, since the error is not escaped. */
  lemma FailedRowLines(fid: int, error: string)
    ensures Lines(FailedRow(fid, error)) == Lines(error) + 1
  {
    NumberHasNoLineBreak(fid);
  }

  /** Each failed row starts with text that parseInt reads back as its fid,
      whatever the error. */
  lemma FailedRowReadsBack(fid: int, error: string)
    ensures ParseInt(FailedRow(fid, error)) == Some(fid)
  {
    var a, b, q := IntToString(fid), ",\"", "\"\n";
    Append3(a + b, error, q);
    Append3(a, b, error + q);
    Append3(b, error, q);
    ParseIntPrefix(fid, ",\"" + error + "\"\n");
    assert FailedRow(fid, error) == IntToString(fid) + (",\"" + error + "\"\n");
  }

  /** So the failed rows hold one line per failed fid when no recorded
      error contains a line break. */
  lemma {:induction false} FailedRowsLines(order: seq<int>, failed: map<int, string>)
    requires forall f :: f in order ==> f in failed
    requires forall f :: f in failed ==> Lines(failed[f]) == 0
    ensures Lines(FailedRows(order, failed)) == |order|
  {
    if order != [] {
      var f := order[|order| - 1];
      FailedRowsLines(order[..|order| - 1], failed);
      FailedRowLines(f, failed[f]);
    }
  }
}
