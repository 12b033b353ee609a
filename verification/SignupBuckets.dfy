/** The sign-up curve of a monthly report: one point per hour, the last of the hour, and a closing point. */
module SignupBuckets {
  const SIGNUP_BUCKET_SEC := 3600

  datatype ChartPoint = ChartPoint(t: int, y: int)

  function Bucket(p: ChartPoint): int {
    p.t / SIGNUP_BUCKET_SEC
  }

  /** Points share a bucket exactly if they fall in one hour of the clock, before 1970 as well as after. */
  lemma BucketsAreHours(p: ChartPoint, hour: int)
    ensures Bucket(p) == hour <==> hour * 3600 <= p.t < (hour + 1) * 3600
  {
  }

  predicate Ascending(points: seq<ChartPoint>) {
    forall i, j :: 0 <= i < j < |points| ==> points[i].t <= points[j].t
  }

  /** p is the last of the points in its hour. */
  predicate LastOfHour(points: seq<ChartPoint>, p: ChartPoint) {
    exists i :: 0 <= i < |points| && points[i] == p && forall j :: i < j < |points| ==> Bucket(points[j]) != Bucket(p)
  }

  predicate StrictlyByHour(points: seq<ChartPoint>) {
    forall i, j :: 0 <= i < j < |points| ==> Bucket(points[i]) < Bucket(points[j])
  }

  /** bucketSignupPoints: the last point of every hour that has any, in order; then, precisely if the sign-up
      closes after the last point, one more point there with the final count. */
  method BucketSignupPoints(points: seq<ChartPoint>, endSec: int) returns (out: seq<ChartPoint>)
    requires Ascending(points)
    ensures points == [] ==> out == []
    ensures points != [] ==> out != []
    ensures points != [] ==>
              var last := points[|points| - 1];
              var hours := if endSec > last.t then out[..|out| - 1] else out;
              && StrictlyByHour(hours)
              && (forall p :: p in hours <==> LastOfHour(points, p))
              && (endSec > last.t ==> out[|out| - 1] == ChartPoint(endSec, last.y))
  {
    out := [];
    if |points| == 0 {
      return;
    }
    var curBucket := Bucket(points[0]);
    var last := points[0];
    for i := 0 to |points|
      invariant curBucket == Bucket(last)
      invariant if i == 0 then last == points[0] && out == [] else last == points[i - 1]
      invariant i > 0 ==> Recorded(points[..i], out + [last])
    {
      var p := points[i];
      var b := Bucket(p);
      ghost var before := out;
      if b != curBucket {
        out := out + [last];
        curBucket := b;
      }
      if i == 0 {
        FirstRecorded(p);
        assert points[..1] == [p] && out + [p] == [p];
      } else {
        NextRecorded(points[..i], before, last, p);
        assert points[..i] + [p] == points[..i + 1];
      }
      last := p;
    }
    assert points[..|points|] == points;
    out := out + [last];
    if endSec > last.t {
      assert (out + [ChartPoint(endSec, last.y)])[..|out|] == out;
      out := out + [ChartPoint(endSec, last.y)];
    }
  }

  /** `hours` is right for the points so far. */
  ghost predicate Recorded(points: seq<ChartPoint>, hours: seq<ChartPoint>) {
    StrictlyByHour(hours) && forall p :: p in hours <==> LastOfHour(points, p)
  }

  lemma FirstRecorded(p: ChartPoint)
    ensures Recorded([p], [p])
  {
    assert [p][0] == p;
    assert LastOfHour([p], p);
  }

  lemma LastOfLonger(points: seq<ChartPoint>, p: ChartPoint, q: ChartPoint)
    ensures LastOfHour(points + [p], q) <==> q == p || (LastOfHour(points, q) && Bucket(q) != Bucket(p))
  {
    var longer := points + [p];
    assert longer[|points|] == p;
    if LastOfHour(longer, q) && q != p {
      var i :| 0 <= i < |longer| && longer[i] == q && forall j :: i < j < |longer| ==> Bucket(longer[j]) != Bucket(q);
      assert points[i] == q;
      assert forall j :: i < j < |points| ==> points[j] == longer[j];
    }
    if LastOfHour(points, q) && Bucket(q) != Bucket(p) {
      var i :| 0 <= i < |points| && points[i] == q && forall j :: i < j < |points| ==> Bucket(points[j]) != Bucket(q);
      assert longer[i] == q;
    }
  }

  /** One more point either replaces the last of its hour or opens a new hour. */
  lemma NextRecorded(points: seq<ChartPoint>, out: seq<ChartPoint>, last: ChartPoint, p: ChartPoint)
    requires Recorded(points, out + [last]) && Bucket(last) <= Bucket(p)
    ensures Recorded(points + [p], (if Bucket(p) != Bucket(last) then out + [last] else out) + [p])
  {
    var hours := out + [last];
    var kept := if Bucket(p) != Bucket(last) then hours else out;
    assert hours[|out|] == last;
    forall i | 0 <= i < |kept| ensures Bucket(kept[i]) < Bucket(p) {
      assert kept[i] == hours[i];
    }
    assert StrictlyByHour(kept + [p]) by {
      forall i, j | 0 <= i < j < |kept + [p]| ensures Bucket((kept + [p])[i]) < Bucket((kept + [p])[j]) {
        assert j < |kept| ==> hours[i] == kept[i] && hours[j] == kept[j];
      }
    }
    forall q ensures q in kept + [p] <==> LastOfHour(points + [p], q) {
      LastOfLonger(points, p, q);
      assert q in hours <==> LastOfHour(points, q);
      InHours(out, last, q);
      assert q in kept + [p] <==> q in kept || q == p;
    }
    assert Recorded(points + [p], kept + [p]);
  }

  lemma InHours(out: seq<ChartPoint>, last: ChartPoint, q: ChartPoint)
    requires StrictlyByHour(out + [last])
    ensures q in out + [last] <==> q in out || q == last
    ensures q in out ==> Bucket(q) < Bucket(last)
    ensures q in out + [last] ==> Bucket(q) <= Bucket(last)
  {
    var hours := out + [last];
    assert hours[|out|] == last;
    if q in out {
      var i :| 0 <= i < |out| && out[i] == q;
      assert hours[i] == q;
    }
  }
}
