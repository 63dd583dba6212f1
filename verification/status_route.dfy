/** GET /api/admin/broadcast/status (app/api/admin/broadcast/status/route.ts):
    one read of the stats hash, then the progress, ETA and completion flag
    computed from it. The clock reading is a parameter; the floating-point
    arithmetic of the source is computed exactly. */
module StatusRoute {
  import opened Common
  import opened BroadcastQueue

  datatype Report = Report(
    broadcastId: string, stats: Status, progressTenths: int, eta: Option<int>, isComplete: bool)

  datatype Response = Ok(report: Report) | Error(status: int, error: string)

  /** Math.round(progress * 10) with progress = done / total * 100, in
      tenths of a percent: the nearest integer to 1000 * done / total, halves
      rounded up; 0 when total is 0. */
  function ProgressTenths(done: int, total: int): (r: int)
    ensures total > 0 ==> 2 * total * r - total <= 2000 * done < 2 * total * r + total
    ensures total <= 0 ==> r == 0
  {
    if total > 0 then (2000 * done + total) / (2 * total) else 0
  }

  /** Progress never leaves [0, 100] while sent + failed stays within total,
      and it is exactly 100 when everything is accounted for. */
  lemma ProgressInRange(done: int, total: int)
    requires 0 <= done <= total
    ensures 0 <= ProgressTenths(done, total) <= 1000
    ensures total > 0 && done == total ==> ProgressTenths(done, total) == 1000
    ensures done == 0 ==> ProgressTenths(done, total) == 0
  {
    if total > 0 {
      var r := ProgressTenths(done, total);
      var t := 2 * total;
      assert t * r - total <= 2000 * done < t * r + total;
      if r < 0 {
        MulMonotone(t, r, -1);
        assert false;
      }
      if r > 1000 {
        MulMonotone(t, 1001, r);
        assert false;
      }
      if done == total {
        if r < 1000 {
          MulMonotone(t, r, 999);
          assert false;
        }
      }
      if done == 0 {
        if r > 0 {
          MulMonotone(t, 1, r);
          assert false;
        }
      }
    }
  }

  lemma MulMonotone(t: int, a: int, b: int)
    requires t > 0 && a <= b
    ensures t * a <= t * b
  {
    assert t * b - t * a == t * (b - a);
  }

  /** Math.ceil(a / b) for a positive divisor. */
  function CeilDiv(a: int, b: int): (r: int)
    requires b > 0
    ensures (r - 1) * b < a <= r * b
  {
    -((-a) / b)
  }

  /** The eta field: 0 unless something was sent and something is pending;
      otherwise ceil(elapsed / (sent + failed) * pending / 1000) seconds.
      When sent + failed is 0 the source divides by zero and the value is
      not finite, which the JSON response carries as null (None here). */
  function Eta(s: Status, now: int): (r: Option<int>)
    ensures !(s.sent > 0 && s.pending > 0) ==> r == Some(0)
    ensures s.sent > 0 && s.pending > 0 ==> (r.None? <==> s.sent + s.failed == 0)
    ensures s.sent > 0 && s.pending > 0 && s.sent + s.failed != 0 ==>
              var num := (now - s.startTime) * s.pending;
              var den := 1000 * (s.sent + s.failed);
              // r - 1 < num / den <= r, written without division
              if den > 0 then (r.value - 1) * den < num <= r.value * den
              else (r.value - 1) * den > num >= r.value * den
  {
    if s.sent > 0 && s.pending > 0 then
      var done := s.sent + s.failed;
      var num := (now - s.startTime) * s.pending;
      var den := 1000 * done;
      if done == 0 then None
      else if den > 0 then Some(CeilDiv(num, den))
      else Some(CeilDiv(-num, -den))
    else Some(0)
  }

  /** The isComplete flag. */
  predicate IsComplete(s: Status) {
    s.pending == 0 && s.processing == 0
  }

  /** The response for a status the store returned. */
  function ReportOf(id: string, s: Status, now: int): Report {
    Report(id, s, ProgressTenths(s.sent + s.failed, s.total), Eta(s, now), IsComplete(s))
  }

  /** GET: 400 without an id, 404 when the broadcast has no stats, otherwise
      the report on the status just read. */
  function Get(store: Store, id: Option<string>, now: int): (r: Response)
    reads store
    ensures Missing(id) <==> r == Error(400, "Missing broadcast ID")
    ensures !Missing(id) && store.GetBroadcastStatus(id.value).None? <==> r == Error(404, "Broadcast not found")
    ensures r.Ok? ==> !Missing(id) && store.Job(id.value).stats.written
                      && r.report.broadcastId == id.value
                      && Some(r.report.stats) == store.GetBroadcastStatus(id.value)
                      && (r.report.isComplete <==>
                            store.Job(id.value).stats.pending == 0 && store.Job(id.value).stats.processing == 0)
    ensures r.Ok? ==> && r.report.progressTenths
                         == ProgressTenths(r.report.stats.sent + r.report.stats.failed, r.report.stats.total)
                      && r.report.eta == Eta(r.report.stats, now)
  {
    if Missing(id) then Error(400, "Missing broadcast ID")
    else
      match store.GetBroadcastStatus(id.value)
      case None => Error(404, "Broadcast not found")
      case Some(s) => Ok(ReportOf(id.value, s, now))
  }

  /** What the status route reports on a broadcast the worker has finished
      from a quiescent start: 100 %, no ETA left, complete. */
  lemma FinishedBroadcastReport(id: string, s: Status, now: int)
    requires s.pending == 0 && s.processing == 0 && s.sent + s.failed == s.total
    requires 0 <= s.sent + s.failed
    ensures ReportOf(id, s, now).isComplete
    ensures ReportOf(id, s, now).eta == Some(0)
    ensures s.total > 0 ==> ReportOf(id, s, now).progressTenths == 1000
  {
    ProgressInRange(s.sent + s.failed, s.total);
  }
}
