// The 30-day capacity forecast: samples grouped by resource, a least-squares slope per group, and a
// clamped projection (capacityForecast). Arithmetic is over exact reals, and the figures answered are rounded as
// toFixed does.
module Forecast {
  import opened Arithmetic
  import opened Common

  datatype Point = Point(x: real, y: real)  // x in days, y in percent
  datatype Sample = Sample(kind: string, id: string, point: Point)
  datatype Group = Group(kind: string, id: string, points: seq<Point>)

  // A JavaScript Map: entries in insertion order.
  datatype Entry = Entry(key: string, group: Group)

  function Key(kind: string, id: string): string { kind + ":" + id }

  function FindEntry(entries: seq<Entry>, key: string): (found: Option<nat>)
    ensures found.Some? ==> found.value < |entries| && entries[found.value].key == key
    ensures found.None? ==> forall k :: 0 <= k < |entries| ==> entries[k].key != key
  {
    FindBy(entries, (e: Entry) => e.key == key)
  }

  // The points of the rows under one key, in row order.
  function PointsOf(rows: seq<Sample>, key: string): seq<Point> {
    if rows == [] then []
    else
      var last := rows[|rows| - 1];
      PointsOf(rows[..|rows| - 1], key) + if Key(last.kind, last.id) == key then [last.point] else []
  }

  // Every key has one entry, opened by its first row and holding exactly its points in order.
  ghost predicate Grouped(rows: seq<Sample>, entries: seq<Entry>) {
    && (forall j, k :: 0 <= j < k < |entries| ==> entries[j].key != entries[k].key)
    && (forall k :: 0 <= k < |entries| ==> Opened(rows, entries[k]))
    && (forall k :: 0 <= k < |entries| ==> entries[k].group.points == PointsOf(rows, entries[k].key))
    && (forall i :: 0 <= i < |rows| ==> HasEntry(entries, Key(rows[i].kind, rows[i].id)))
  }

  ghost predicate Opened(rows: seq<Sample>, e: Entry) {
    exists i :: 0 <= i < |rows| && FirstOf(rows, i, e)
  }

  ghost predicate FirstOf(rows: seq<Sample>, i: nat, e: Entry)
    requires i < |rows|
  {
    && (rows[i].kind, rows[i].id) == (e.group.kind, e.group.id) && Key(rows[i].kind, rows[i].id) == e.key
    && forall j :: 0 <= j < i ==> Key(rows[j].kind, rows[j].id) != e.key
  }

  ghost predicate HasEntry(entries: seq<Entry>, key: string) {
    exists k :: 0 <= k < |entries| && entries[k].key == key
  }

  lemma {:induction false} NoPoints(rows: seq<Sample>, key: string)
    requires forall i :: 0 <= i < |rows| ==> Key(rows[i].kind, rows[i].id) != key
    ensures PointsOf(rows, key) == []
  {
    if rows != [] { NoPoints(rows[..|rows| - 1], key); }
  }

  // Where the loop files the row: in its key's entry, or in a new one.
  function Filed(entries: seq<Entry>, row: Sample): seq<Entry> {
    var key := Key(row.kind, row.id);
    var found := FindEntry(entries, key);
    if found.Some? then
      var g := entries[found.value].group;
      entries[found.value := Entry(key, g.(points := g.points + [row.point]))]
    else entries + [Entry(key, Group(row.kind, row.id, [row.point]))]
  }

  lemma FiledKeepsOpened(rows: seq<Sample>, entries: seq<Entry>, row: Sample, k: nat)
    requires Grouped(rows, entries) && k < |Filed(entries, row)|
    ensures Opened(rows + [row], Filed(entries, row)[k])
  {
    var e := Filed(entries, row)[k];
    var more := rows + [row];
    if k < |entries| {
      var i :| 0 <= i < |rows| && FirstOf(rows, i, entries[k]);
      assert FirstOf(more, i, e);
    } else {
      forall i | 0 <= i < |rows| ensures Key(rows[i].kind, rows[i].id) != e.key {
        assert HasEntry(entries, Key(rows[i].kind, rows[i].id));
      }
      assert FirstOf(more, |rows|, e);
    }
  }

  lemma FiledKeepsPoints(rows: seq<Sample>, entries: seq<Entry>, row: Sample, k: nat)
    requires Grouped(rows, entries) && k < |Filed(entries, row)|
    ensures Filed(entries, row)[k].group.points == PointsOf(rows + [row], Filed(entries, row)[k].key)
  {
    var more := rows + [row];
    assert more[..|rows|] == rows;
    if k == |entries| {
      forall i | 0 <= i < |rows| ensures Key(rows[i].kind, rows[i].id) != Filed(entries, row)[k].key {
        assert HasEntry(entries, Key(rows[i].kind, rows[i].id));
      }
      NoPoints(rows, Filed(entries, row)[k].key);
    }
  }

  lemma FiledKeepsKeys(rows: seq<Sample>, entries: seq<Entry>, row: Sample, i: nat)
    requires Grouped(rows, entries) && i < |rows + [row]|
    ensures HasEntry(Filed(entries, row), Key((rows + [row])[i].kind, (rows + [row])[i].id))
  {
    var filed := Filed(entries, row);
    var k: nat;
    if i < |rows| {
      assert HasEntry(entries, Key(rows[i].kind, rows[i].id));
      k :| 0 <= k < |entries| && entries[k].key == Key(rows[i].kind, rows[i].id);
    } else {
      var found := FindEntry(entries, Key(row.kind, row.id));
      k := if found.Some? then found.value else |entries|;
    }
    assert filed[k].key == Key((rows + [row])[i].kind, (rows + [row])[i].id);
  }

  lemma FiledIsUnique(entries: seq<Entry>, row: Sample)
    requires forall j, k :: 0 <= j < k < |entries| ==> entries[j].key != entries[k].key
    ensures var filed := Filed(entries, row); forall j, k :: 0 <= j < k < |filed| ==> filed[j].key != filed[k].key
  {
  }

  lemma FiledKeepsGroups(rows: seq<Sample>, entries: seq<Entry>, row: Sample)
    requires Grouped(rows, entries)
    ensures Grouped(rows + [row], Filed(entries, row))
  {
    var filed, more := Filed(entries, row), rows + [row];
    FiledIsUnique(entries, row);
    forall k | 0 <= k < |filed|
      ensures Opened(more, filed[k]) && filed[k].group.points == PointsOf(more, filed[k].key)
    {
      FiledKeepsOpened(rows, entries, row, k);
      FiledKeepsPoints(rows, entries, row, k);
    }
    forall i | 0 <= i < |more| ensures HasEntry(filed, Key(more[i].kind, more[i].id)) {
      FiledKeepsKeys(rows, entries, row, i);
    }
  }

  function FileAll(rows: seq<Sample>): seq<Entry> {
    if rows == [] then [] else Filed(FileAll(rows[..|rows| - 1]), rows[|rows| - 1])
  }

  lemma {:induction false} FileAllInduction(rows: seq<Sample>, ok: (seq<Sample>, seq<Entry>) -> bool)
    requires ok([], [])
    requires forall front: seq<Sample>, entries: seq<Entry>, row: Sample ::
               ok(front, entries) ==> ok(front + [row], Filed(entries, row))
    ensures ok(rows, FileAll(rows))
  {
    if rows != [] {
      var n := |rows| - 1;
      FileAllInduction(rows[..n], ok);
      assert rows == rows[..n] + [rows[n]];
    }
  }

  lemma FileAllGroups(rows: seq<Sample>)
    ensures Grouped(rows, FileAll(rows))
  {
    forall front: seq<Sample>, entries: seq<Entry>, row: Sample | Grouped(front, entries)
      ensures Grouped(front + [row], Filed(entries, row))
    {
      FiledKeepsGroups(front, entries, row);
    }
    FileAllInduction(rows, (front, entries) => Grouped(front, entries));
  }

  method GroupSamples(rows: seq<Sample>) returns (entries: seq<Entry>)
    ensures Grouped(rows, entries)
  {
    entries := [];
    for n := 0 to |rows|
      invariant entries == FileAll(rows[..n])
    {
      var row := rows[n];
      assert rows[..n + 1][..n] == rows[..n];
      assert FileAll(rows[..n + 1]) == Filed(entries, row);
      var key := Key(row.kind, row.id);
      var found := FindEntry(entries, key);
      var g := if found.Some? then entries[found.value].group else Group(row.kind, row.id, []);
      g := g.(points := g.points + [row.point]);
      if found.Some? {
        entries := entries[found.value := Entry(key, g)];
      } else {
        assert g.points == [row.point];
        entries := entries + [Entry(key, g)];
      }
    }
    assert rows[..|rows|] == rows;
    FileAllGroups(rows);
  }

  // Keys separate resources as long as no resource type contains the separator, which none of the admitted types does.
  lemma KeysSeparate(kind: string, id: string, kind': string, id': string)
    requires ':' !in kind && ':' !in kind' && Key(kind, id) == Key(kind', id')
    ensures kind == kind' && id == id'
  {
    FirstColon(kind, id);
    FirstColon(kind', id');
    assert kind == Key(kind, id)[..|kind|] && id == Key(kind, id)[|kind| + 1..];
    assert kind' == Key(kind, id)[..|kind'|] && id' == Key(kind, id)[|kind'| + 1..];
  }

  lemma FirstColon(kind: string, id: string)
    requires ':' !in kind
    ensures Key(kind, id)[|kind|] == ':' && forall i :: 0 <= i < |kind| ==> Key(kind, id)[i] != ':'
  {
  }

  lemma SeparatorMatters()
    ensures Key("a", "b:c") == Key("a:b", "c")
  {
  }

  // ---- Regression ----

  function X(): Point -> real { (p: Point) => p.x }
  function Y(): Point -> real { (p: Point) => p.y }
  function DevX(mx: real): Point -> real { (p: Point) => p.x - mx }
  function DevY(my: real): Point -> real { (p: Point) => p.y - my }
  function Times(u: real, v: real): real { u * v }
  function SquareX(mx: real): Point -> real { (p: Point) => Times(p.x - mx, p.x - mx) }
  function SquareY(my: real): Point -> real { (p: Point) => Times(p.y - my, p.y - my) }
  function Cross(mx: real, my: real): Point -> real { (p: Point) => Times(p.x - mx, p.y - my) }

  function Mean(points: seq<Point>, f: Point -> real): real
    requires points != []
  {
    SumBy(points, f) / (|points| as real)
  }

  function Gradient(cross: real, denom: real): real { if denom != 0.0 then cross / denom else 0.0 }

  function Slope(points: seq<Point>): real
    requires points != []
  {
    var mx, my := Mean(points, X()), Mean(points, Y());
    Gradient(SumBy(points, Cross(mx, my)), SumBy(points, SquareX(mx)))
  }

  datatype Trend = Increasing | Decreasing | Stable
  datatype Outlook =
    | InsufficientData(samples: nat, latest: Option<real>)
    | Projected(samples: nat, current: real, dailyChange: real, projected: real, trend: Trend, daysTo80: Option<real>)

  function Percent(y: real): real { if y > 100.0 then 100.0 else if y < 0.0 then 0.0 else y }

  // The line meets 80 percent after this many days.
  function DaysTo80(last: real, slope: real): (days: real)
    requires slope > 0.0 && last < 80.0
    ensures days > 0.0 && last + slope * days == 80.0
  {
    (80.0 - last) / slope
  }

  // A projection needs three samples and is a percentage whatever was measured: the line through the last reading after
  // 30 days, clamped and then rounded to two digits. The trend is decided before the slope is rounded to three digits,
  // and the day to one.
  function Project(points: seq<Point>): (o: Outlook)
    ensures o.Projected? <==> |points| >= 3
    ensures o.samples == |points|
    ensures o.Projected? ==> 0.0 <= o.projected <= 100.0
    ensures o.Projected? ==> -0.005 <= o.projected - Percent(points[|points| - 1].y + Slope(points) * 30.0) <= 0.005
    ensures o.Projected? ==> (o.trend == Increasing <==> Slope(points) > 0.1)
    ensures o.Projected? ==> (o.trend == Decreasing <==> Slope(points) < -0.1)
    ensures o.Projected? ==> -0.0005 <= o.dailyChange - Slope(points) <= 0.0005
    ensures o.Projected? ==> (o.daysTo80.Some? <==> Slope(points) > 0.0 && points[|points| - 1].y < 80.0)
    ensures o.Projected? && o.daysTo80.Some? ==>
              -0.05 <= o.daysTo80.value - DaysTo80(points[|points| - 1].y, Slope(points)) <= 0.05
  {
    var n := |points|;
    if n < 3 then InsufficientData(n, if n == 0 then None else Some(points[n - 1].y))
    else
      var last, slope := points[n - 1].y, Slope(points);
      RoundNonNegative(Percent(last + slope * 30.0), 100);
      RoundAtMost(Percent(last + slope * 30.0), 100, 100);
      Projected(n, last, ToFixed(slope, 1000), ToFixed(Percent(last + slope * 30.0), 100),
                if slope > 0.1 then Increasing else if slope < -0.1 then Decreasing else Stable,
                if slope > 0.0 && last < 80.0 then Some(ToFixed(DaysTo80(last, slope), 10)) else None)
  }

  // The daily change has three digits, the projection two and the days one.
  lemma FiguresHaveDigits(points: seq<Point>)
    requires |points| >= 3
    ensures var o := Project(points);
      && Whole(Scaled(o.dailyChange, 1000)) && Whole(Scaled(o.projected, 100))
      && (o.daysTo80.Some? ==> Whole(Scaled(o.daysTo80.value, 10)))
  {
    var last, slope := points[|points| - 1].y, Slope(points);
    RoundedIsWhole(slope, 1000);
    RoundedIsWhole(Percent(last + slope * 30.0), 100);
    if slope > 0.0 && last < 80.0 { RoundedIsWhole(DaysTo80(last, slope), 10); }
  }

  // ---- The answer ----

  datatype Forecasted = Forecasted(kind: string, id: string, outlook: Outlook)

  function ResourceKey(f: Forecasted): string { Key(f.kind, f.id) }

  predicate IsResource(row: Sample, kind: string, id: string) { row.kind == kind && row.id == id }

  ghost predicate Sampled(rows: seq<Sample>, kind: string, id: string) {
    exists i :: 0 <= i < |rows| && IsResource(rows[i], kind, id)
  }

  ghost predicate HasAnswer(data: seq<Forecasted>, key: string) {
    exists k :: 0 <= k < |data| && ResourceKey(data[k]) == key
  }

  // One answer a key, for a resource that was sampled, projecting the samples under the key.
  ghost predicate Answers(rows: seq<Sample>, data: seq<Forecasted>) {
    && (forall j, k :: 0 <= j < k < |data| ==> ResourceKey(data[j]) != ResourceKey(data[k]))
    && (forall k :: 0 <= k < |data| ==> Sampled(rows, data[k].kind, data[k].id))
    && (forall k :: 0 <= k < |data| ==> data[k].outlook == Project(PointsOf(rows, ResourceKey(data[k]))))
    && (forall i :: 0 <= i < |rows| ==> HasAnswer(data, Key(rows[i].kind, rows[i].id)))
  }

  lemma EntryIsSampled(rows: seq<Sample>, e: Entry)
    requires Opened(rows, e)
    ensures Sampled(rows, e.group.kind, e.group.id) && e.key == Key(e.group.kind, e.group.id)
  {
    var i :| 0 <= i < |rows| && FirstOf(rows, i, e);
    assert IsResource(rows[i], e.group.kind, e.group.id);
  }

  method CapacityForecast(rows: seq<Sample>) returns (data: seq<Forecasted>)
    ensures Answers(rows, data)
  {
    var entries := GroupSamples(rows);
    data := [];
    for n := 0 to |entries|
      invariant |data| == n
      invariant forall k :: 0 <= k < n ==>
                  data[k] == Forecasted(entries[k].group.kind, entries[k].group.id, Project(entries[k].group.points))
    {
      var g := entries[n].group;
      data := data + [Forecasted(g.kind, g.id, Project(g.points))];
    }
    forall k | 0 <= k < |data|
      ensures ResourceKey(data[k]) == entries[k].key && Sampled(rows, data[k].kind, data[k].id)
    {
      EntryIsSampled(rows, entries[k]);
    }
    forall i | 0 <= i < |rows| ensures HasAnswer(data, Key(rows[i].kind, rows[i].id)) {
      assert HasEntry(entries, Key(rows[i].kind, rows[i].id));
      var k :| 0 <= k < |entries| && entries[k].key == Key(rows[i].kind, rows[i].id);
      assert ResourceKey(data[k]) == entries[k].key;
    }
  }

  // The samples of one resource, in row order.
  function OwnPoints(rows: seq<Sample>, kind: string, id: string): seq<Point> {
    if rows == [] then []
    else
      var last := rows[|rows| - 1];
      OwnPoints(rows[..|rows| - 1], kind, id) + if IsResource(last, kind, id) then [last.point] else []
  }

  lemma {:induction false} KeyedPointsAreOwn(rows: seq<Sample>, kind: string, id: string)
    requires ':' !in kind && forall i :: 0 <= i < |rows| ==> ':' !in rows[i].kind
    ensures PointsOf(rows, Key(kind, id)) == OwnPoints(rows, kind, id)
  {
    if rows != [] {
      var last := rows[|rows| - 1];
      KeyedPointsAreOwn(rows[..|rows| - 1], kind, id);
      if Key(last.kind, last.id) == Key(kind, id) { KeysSeparate(last.kind, last.id, kind, id); }
    }
  }

  // As no resource type contains the separator, the answer has for each resource sampled one projection, of exactly
  // that resource's samples, and none for any other.
  lemma EachResourceIsAnswered(rows: seq<Sample>, data: seq<Forecasted>, kind: string, id: string)
    requires Answers(rows, data) && forall i :: 0 <= i < |rows| ==> ':' !in rows[i].kind
    ensures (exists k :: 0 <= k < |data| && ResourceIs(data[k], kind, id)) <==> Sampled(rows, kind, id)
    ensures forall j, k :: 0 <= j < k < |data| ==> (data[j].kind, data[j].id) != (data[k].kind, data[k].id)
    ensures forall k :: 0 <= k < |data| && ResourceIs(data[k], kind, id) ==>
              data[k].outlook == Project(OwnPoints(rows, kind, id))
  {
    forall j, k | 0 <= j < k < |data| ensures (data[j].kind, data[j].id) != (data[k].kind, data[k].id) {
      assert ResourceKey(data[j]) != ResourceKey(data[k]);
    }
    forall k | 0 <= k < |data| && ResourceIs(data[k], kind, id)
      ensures Sampled(rows, kind, id) && data[k].outlook == Project(OwnPoints(rows, kind, id))
    {
      assert Sampled(rows, data[k].kind, data[k].id);
      KeyedPointsAreOwn(rows, kind, id);
    }
    if Sampled(rows, kind, id) {
      var i :| 0 <= i < |rows| && IsResource(rows[i], kind, id);
      assert HasAnswer(data, Key(kind, id));
      var k :| 0 <= k < |data| && ResourceKey(data[k]) == Key(kind, id);
      assert Sampled(rows, data[k].kind, data[k].id);
      KeysSeparate(data[k].kind, data[k].id, kind, id);
      assert ResourceIs(data[k], kind, id);
    }
  }

  predicate ResourceIs(f: Forecasted, kind: string, id: string) { f.kind == kind && f.id == id }

  // ---- Least squares ----

  // Squared error of the line y = a + b x.
  function Miss(a: real, b: real, p: Point): real { p.y - a - b * p.x }
  function ErrorOf(a: real, b: real): Point -> real { (p: Point) => Times(Miss(a, b, p), Miss(a, b, p)) }
  function SquaredError(points: seq<Point>, a: real, b: real): real { SumBy(points, ErrorOf(a, b)) }

  ghost predicate TwoTimes(points: seq<Point>) {
    exists i, j :: 0 <= i < j < |points| && points[i].x != points[j].x
  }

  lemma {:induction false} SumOfDeviations(points: seq<Point>, mx: real, my: real)
    ensures SumBy(points, DevX(mx)) == SumBy(points, X()) - (|points| as real) * mx
    ensures SumBy(points, DevY(my)) == SumBy(points, Y()) - (|points| as real) * my
  {
    if points != [] { SumOfDeviations(points[..|points| - 1], mx, my); }
  }

  lemma Expand(u: real, v: real, b: real, c: real)
    ensures (v - b * u + c) * (v - b * u + c) ==
            v * v - 2.0 * b * (u * v) + b * b * (u * u) + 2.0 * c * v - 2.0 * c * b * u + c * c
  {
    var w := v - b * u;
    assert (w + c) * (w + c) == w * w + 2.0 * c * w + c * c;
    assert w * w == v * v - 2.0 * b * (u * v) + b * b * (u * u);
  }

  // The sums a least-squares fit needs, about a centre (mx, my).
  datatype Moments = Moments(syy: real, sxy: real, sxx: real, sy: real, sx: real, n: real)

  function MomentsOf(points: seq<Point>, mx: real, my: real): Moments {
    Moments(SumBy(points, SquareY(my)), SumBy(points, Cross(mx, my)), SumBy(points, SquareX(mx)),
            SumBy(points, DevY(my)), SumBy(points, DevX(mx)), |points| as real)
  }

  function Grow(m: Moments, u: real, v: real): Moments {
    Moments(m.syy + Times(v, v), m.sxy + Times(u, v), m.sxx + Times(u, u), m.sy + v, m.sx + u, m.n + 1.0)
  }

  // The error of a line as a polynomial in its slope b and its offset c at the centre.
  function Polynomial(m: Moments, b: real, c: real): real {
    m.syy - 2.0 * b * m.sxy + b * b * m.sxx + 2.0 * c * m.sy - 2.0 * c * b * m.sx + m.n * (c * c)
  }

  // One point's part of the error, by its deviations.
  function Share(b: real, c: real, u: real, v: real): real { Times(v - b * u + c, v - b * u + c) }

  // The six terms of the polynomial, before they are summed.
  lemma TermsGrow(m: Moments, b: real, c: real, u: real, v: real)
    ensures Polynomial(Grow(m, u, v), b, c) == Polynomial(m, b, c)
              + (v * v - 2.0 * b * (u * v) + b * b * (u * u) + 2.0 * c * v - 2.0 * c * b * u + c * c)
  {
    Distribute(2.0 * b, m.sxy, u * v);
    Distribute(b * b, m.sxx, u * u);
    Distribute(2.0 * c, m.sy, v);
    Distribute(2.0 * c * b, m.sx, u);
    Distribute(c * c, m.n, 1.0);
  }

  lemma PolynomialGrows(m: Moments, b: real, c: real, u: real, v: real)
    ensures Polynomial(Grow(m, u, v), b, c) == Polynomial(m, b, c) + Share(b, c, u, v)
  {
    var before, after := Polynomial(m, b, c), Polynomial(Grow(m, u, v), b, c);
    TermsGrow(m, b, c, u, v);
    Expand(u, v, b, c);
    assert after == before + Share(b, c, u, v);
  }

  lemma MomentsGrow(front: seq<Point>, p: Point, mx: real, my: real)
    ensures MomentsOf(front + [p], mx, my) == Grow(MomentsOf(front, mx, my), p.x - mx, p.y - my)
  {
    SumAppend(front, p, SquareY(my));
    SumAppend(front, p, Cross(mx, my));
    SumAppend(front, p, SquareX(mx));
    SumAppend(front, p, DevY(my));
    SumAppend(front, p, DevX(mx));
  }

  lemma Residual(p: Point, mx: real, my: real, a: real, b: real, c: real)
    requires c == my - a - b * mx
    ensures ErrorOf(a, b)(p) == Share(b, c, p.x - mx, p.y - my)
  {
    var r, w := Miss(a, b, p), (p.y - my) - b * (p.x - mx) + c;
    assert b * (p.x - mx) == b * p.x - b * mx;
    assert r == w && ErrorOf(a, b)(p) == Times(r, r);
  }

  // A sum over the points that adds up as a function of their moments does.
  lemma {:induction false} SumFollowsMoments(points: seq<Point>, mx: real, my: real, e: Point -> real,
                                             total: Moments -> real, share: (real, real) -> real)
    requires total(MomentsOf([], mx, my)) == 0.0
    requires forall m: Moments, u: real, v: real :: total(Grow(m, u, v)) == total(m) + share(u, v)
    requires forall p: Point :: e(p) == share(p.x - mx, p.y - my)
    ensures SumBy(points, e) == total(MomentsOf(points, mx, my))
  {
    if points != [] {
      var n := |points| - 1;
      SumFollowsMoments(points[..n], mx, my, e, total, share);
      MomentsGrow(points[..n], points[n], mx, my);
      assert points == points[..n] + [points[n]];
    }
  }

  lemma ErrorExpands(points: seq<Point>, mx: real, my: real, a: real, b: real, c: real)
    requires c == my - a - b * mx
    ensures SquaredError(points, a, b) == Polynomial(MomentsOf(points, mx, my), b, c)
  {
    var total := (m: Moments) => Polynomial(m, b, c);
    var share := (u: real, v: real) => Share(b, c, u, v);
    forall m: Moments, u: real, v: real ensures total(Grow(m, u, v)) == total(m) + share(u, v) {
      PolynomialGrows(m, b, c, u, v);
    }
    forall p: Point ensures ErrorOf(a, b)(p) == share(p.x - mx, p.y - my) { Residual(p, mx, my, a, b, c); }
    SumFollowsMoments(points, mx, my, ErrorOf(a, b), total, share);
  }

  lemma SpreadIsPositive(points: seq<Point>, mx: real)
    requires TwoTimes(points)
    ensures SumBy(points, SquareX(mx)) > 0.0
  {
    var i, j :| 0 <= i < j < |points| && points[i].x != points[j].x;
    var k := if points[i].x != mx then i else j;
    PositiveSquare(points[k].x - mx);
    assert SquareX(mx)(points[k]) > 0.0;
    forall m | 0 <= m < |points| ensures SquareX(mx)(points[m]) >= 0.0 { Square(points[m].x - mx); }
    SumAtLeast(points, k, SquareX(mx));
  }

  lemma TimesIsPositive(d: real, e: real)
    requires d > 0.0 && e > 0.0
    ensures Times(d, e) > 0.0
  {
    PositiveProduct(d, e);
  }

  lemma SquareOfOpposite(d: real)
    ensures Times(-d, -d) == Times(d, d)
  {
  }

  lemma PositiveSquare(d: real)
    requires d != 0.0
    ensures Times(d, d) > 0.0
  {
    if d > 0.0 {
      TimesIsPositive(d, d);
    } else {
      TimesIsPositive(-d, -d);
      SquareOfOpposite(d);
    }
  }

  lemma Square(d: real)
    ensures Times(d, d) >= 0.0
  {
  }

  lemma MeanCentres(points: seq<Point>)
    requires points != []
    ensures SumBy(points, DevX(Mean(points, X()))) == 0.0 && SumBy(points, DevY(Mean(points, Y()))) == 0.0
  {
    SumOfDeviations(points, Mean(points, X()), Mean(points, Y()));
  }

  // At the centre the slope sxy / sxx and offset 0 minimise the polynomial.
  lemma PolynomialMinimum(m: Moments, s: real, b: real, c: real)
    requires m.sxx > 0.0 && s * m.sxx == m.sxy && m.n >= 0.0 && m.sx == m.sy == 0.0
    ensures Polynomial(m, s, 0.0) <= Polynomial(m, b, c)
  {
    var d := b - s;
    assert b * b * m.sxx == (s * s + 2.0 * s * d + d * d) * m.sxx;
    assert 2.0 * b * m.sxy == 2.0 * s * m.sxy + 2.0 * d * (s * m.sxx);
    assert (s * s + 2.0 * s * d + d * d) * m.sxx == s * s * m.sxx + 2.0 * d * (s * m.sxx) + d * d * m.sxx;
    Square(d);
    Square(c);
    assert d * d * m.sxx >= 0.0;
    assert m.n * (c * c) >= 0.0;
  }

  // The fitted line passes through the means.
  function Intercept(points: seq<Point>): real
    requires points != []
  {
    Mean(points, Y()) - Slope(points) * Mean(points, X())
  }

  lemma BestLine(points: seq<Point>, mx: real, my: real, s: real, i: real, a: real, b: real, c: real)
    requires var m := MomentsOf(points, mx, my); m.sxx > 0.0 && s * m.sxx == m.sxy && m.sx == m.sy == 0.0
    requires i == my - s * mx && c == my - a - b * mx
    ensures SquaredError(points, i, s) <= SquaredError(points, a, b)
  {
    var m := MomentsOf(points, mx, my);
    var least, other := Polynomial(m, s, 0.0), Polynomial(m, b, c);
    assert least <= other by { PolynomialMinimum(m, s, b, c); }
    assert SquaredError(points, a, b) == other by { ErrorExpands(points, mx, my, a, b, c); }
    assert SquaredError(points, i, s) == least by { ErrorExpands(points, mx, my, i, s, 0.0); }
  }

  // Over any points with two distinct times, no line fits better than the computed slope through the means.
  lemma SlopeIsLeastSquares(points: seq<Point>, a: real, b: real)
    requires TwoTimes(points)
    ensures SquaredError(points, Intercept(points), Slope(points)) <= SquaredError(points, a, b)
  {
    var mx, my, s := Mean(points, X()), Mean(points, Y()), Slope(points);
    SpreadIsPositive(points, mx);
    MeanCentres(points);
    Ratio(SumBy(points, Cross(mx, my)), SumBy(points, SquareX(mx)));
    BestLine(points, mx, my, s, Intercept(points), a, b, my - a - b * mx);
  }

  predicate On(p: Point, a: real, b: real) { p.y == a + b * p.x }

  ghost predicate OnLine(points: seq<Point>, a: real, b: real) {
    forall i :: 0 <= i < |points| ==> On(points[i], a, b)
  }

  // The deviations from (mx, my) lie on a line through the origin.
  ghost predicate Centred(points: seq<Point>, mx: real, my: real, b: real) {
    forall i :: 0 <= i < |points| ==> DevY(my)(points[i]) == b * DevX(mx)(points[i])
  }

  lemma Deviation(p: Point, mx: real, my: real, a: real, b: real)
    requires On(p, a, b) && my == a + b * mx
    ensures DevY(my)(p) == b * DevX(mx)(p)
  {
  }

  lemma LineCentres(points: seq<Point>, mx: real, my: real, a: real, b: real)
    requires OnLine(points, a, b) && my == a + b * mx
    ensures Centred(points, mx, my, b)
  {
    forall i | 0 <= i < |points| ensures DevY(my)(points[i]) == b * DevX(mx)(points[i]) {
      Deviation(points[i], mx, my, a, b);
    }
  }

  ghost predicate Scales(points: seq<Point>, f: Point -> real, g: Point -> real, b: real) {
    forall i :: 0 <= i < |points| ==> f(points[i]) == b * g(points[i])
  }

  lemma {:induction false} SumScales(points: seq<Point>, f: Point -> real, g: Point -> real, b: real)
    requires Scales(points, f, g, b)
    ensures SumBy(points, f) == b * SumBy(points, g)
  {
    if points != [] {
      var front, p := points[..|points| - 1], points[|points| - 1];
      SumScales(front, f, g, b);
      Distribute(b, SumBy(front, g), g(p));
    }
  }

  lemma Regroup(u: real, v: real, b: real)
    requires v == b * u
    ensures Times(u, v) == b * Times(u, u)
  {
    assert u * (b * u) == b * (u * u);
  }

  // On the line each product of deviations is a multiple of the squared one.
  lemma CrossOnLine(points: seq<Point>, mx: real, my: real, b: real)
    requires Centred(points, mx, my, b)
    ensures SumBy(points, Cross(mx, my)) == b * SumBy(points, SquareX(mx))
  {
    var f, g := Cross(mx, my), SquareX(mx);
    forall i | 0 <= i < |points| ensures f(points[i]) == b * g(points[i]) {
      Regroup(DevX(mx)(points[i]), DevY(my)(points[i]), b);
    }
    SumScales(points, f, g, b);
  }

  lemma {:induction false} CollinearSum(points: seq<Point>, a: real, b: real)
    requires OnLine(points, a, b)
    ensures SumBy(points, Y()) == (|points| as real) * a + b * SumBy(points, X())
  {
    if points != [] { CollinearSum(points[..|points| - 1], a, b); }
  }

  // The mean of collinear points lies on their line.
  lemma MeanOnLine(n: real, x: real, y: real, a: real, b: real)
    requires n > 0.0 && y == n * a + b * x
    ensures y / n == a + b * (x / n)
  {
    Ratio(x, n);
    Ratio(a + b * (x / n), n);
    assert y == (a + b * (x / n)) * n;
  }

  lemma MeansOnLine(points: seq<Point>, a: real, b: real)
    requires points != [] && OnLine(points, a, b)
    ensures Mean(points, Y()) == a + b * Mean(points, X())
  {
    CollinearSum(points, a, b);
    MeanOnLine(|points| as real, SumBy(points, X()), SumBy(points, Y()), a, b);
  }

  // On collinear points the slope is exact.
  lemma CollinearIsExact(points: seq<Point>, a: real, b: real)
    requires TwoTimes(points) && OnLine(points, a, b)
    ensures Slope(points) == b
  {
    MeansOnLine(points, a, b);
    GradientOnLine(points, Mean(points, X()), Mean(points, Y()), a, b);
  }

  lemma GradientOnLine(points: seq<Point>, mx: real, my: real, a: real, b: real)
    requires TwoTimes(points) && OnLine(points, a, b) && my == a + b * mx
    ensures Gradient(SumBy(points, Cross(mx, my)), SumBy(points, SquareX(mx))) == b
  {
    SpreadIsPositive(points, mx);
    LineCentres(points, mx, my, a, b);
    CrossOnLine(points, mx, my, b);
    GradientOfMultiple(SumBy(points, Cross(mx, my)), SumBy(points, SquareX(mx)), b);
  }

  lemma GradientOfMultiple(cross: real, denom: real, b: real)
    requires denom > 0.0 && cross == b * denom
    ensures Gradient(cross, denom) == b
  {
    Ratio(b, denom);
  }

  // With a single distinct time the slope is 0, and the projection repeats the last reading.
  lemma {:induction false} SingleTime(points: seq<Point>, x: real)
    requires |points| >= 3 && forall i :: 0 <= i < |points| ==> points[i].x == x
    ensures Slope(points) == 0.0 && Project(points).projected == ToFixed(Percent(points[|points| - 1].y), 100)
  {
    SumSame(points, x);
    assert Mean(points, X()) == x;
    SumZero(points, SquareX(x));
  }

  lemma {:induction false} SumSame(points: seq<Point>, x: real)
    requires forall i :: 0 <= i < |points| ==> points[i].x == x
    ensures SumBy(points, X()) == (|points| as real) * x
  {
    if points != [] { SumSame(points[..|points| - 1], x); }
  }
}
