/**
 * The summary the upload handler computes over all records of a batch:
 * the record count, the distinct platforms in order of first appearance,
 * and min / max / mean of the values of each sensor type, each `None`
 * when the batch holds no record of that type. A batch without any record
 * has no summary: the frame built from it has no `platform` column, and
 * reading that column raises.
 */
module Summary {
  import opened Base
  import opened Classify
  import opened Ingest

  datatype Stats = Stats(min: Option<real>, max: Option<real>, avg: Option<real>)

  datatype Summary = Summary(
    totalRecords: nat,
    platforms: seq<Platform>,
    temperatureStats: Stats,
    strainStats: Stats)

  /** The values of the records of one type, in record order. */
  function ValuesOf(data: seq<Record>, kind: SensorType): (vs: seq<real>)
    ensures |vs| <= |data|
    ensures forall v :: v in vs <==> exists r :: r in data && r.sensorType == kind && r.value == v
  {
    if data == [] then []
    else
      var rest := ValuesOf(data[1..], kind);
      assert forall r :: r in data[1..] ==> r in data;
      assert forall r :: r in data ==> r == data[0] || r in data[1..];
      (if data[0].sensorType == kind then [data[0].value] else []) + rest
  }

  function Sum(vs: seq<real>): real
  {
    if vs == [] then 0.0 else vs[0] + Sum(vs[1..])
  }

  /** The least value. */
  function Minimum(vs: seq<real>): (m: real)
    requires vs != []
    ensures m in vs && forall v :: v in vs ==> m <= v
  {
    if |vs| == 1 then vs[0]
    else
      var rest := Minimum(vs[1..]);
      assert forall v :: v in vs ==> v == vs[0] || v in vs[1..];
      if vs[0] <= rest then vs[0] else rest
  }

  /** The greatest value. */
  function Maximum(vs: seq<real>): (m: real)
    requires vs != []
    ensures m in vs && forall v :: v in vs ==> v <= m
  {
    if |vs| == 1 then vs[0]
    else
      var rest := Maximum(vs[1..]);
      assert forall v :: v in vs ==> v == vs[0] || v in vs[1..];
      if vs[0] >= rest then vs[0] else rest
  }

  /** The arithmetic mean. */
  function Mean(vs: seq<real>): real
    requires vs != []
  {
    Sum(vs) / (|vs| as real)
  }

  /** min, max and avg of one type, all `None` when the type has no record. */
  function StatsOf(data: seq<Record>, kind: SensorType): Stats
  {
    var vs := ValuesOf(data, kind);
    if vs == [] then Stats(None, None, None)
    else Stats(Some(Minimum(vs)), Some(Maximum(vs)), Some(Mean(vs)))
  }

  /** `unique()`: the distinct elements, in order of first appearance. */
  function Distinct(s: seq<Platform>): (r: seq<Platform>)
    ensures forall x :: x in r <==> x in s
    ensures forall i, j :: 0 <= i < j < |r| ==> r[i] != r[j]
  {
    if s == [] then []
    else
      var init := s[..|s| - 1];
      var last := s[|s| - 1];
      assert s == init + [last];
      var r := Distinct(init);
      if last in r then r else r + [last]
  }

  function PlatformsOf(data: seq<Record>): (ps: seq<Platform>)
    ensures forall r :: r in data ==> r.platform in ps
    ensures forall p :: p in ps ==> exists r :: r in data && r.platform == p
    ensures forall i, j :: 0 <= i < j < |ps| ==> ps[i] != ps[j]
  {
    var all := seq(|data|, k requires 0 <= k < |data| => data[k].platform);
    assert forall r :: r in data ==> r.platform in all by {
      forall r | r in data ensures r.platform in all {
        var k :| 0 <= k < |data| && data[k] == r;
        assert all[k] == r.platform;
      }
    }
    Distinct(all)
  }

  /**
   * The summary block of the upload handler: `None` when the batch has no
   * record, where `df['platform']` raises a KeyError.
   */
  function Summarize(data: seq<Record>): (s: Option<Summary>)
    ensures s.None? <==> data == []
    ensures s.Some? ==>
      && s.value.totalRecords == |data|
      && (forall r :: r in data ==> r.platform in s.value.platforms)
      && (forall p :: p in s.value.platforms ==> exists r :: r in data && r.platform == p)
  {
    if data == [] then None
    else Some(Summary(|data|, PlatformsOf(data), StatsOf(data, Temperature), StatsOf(data, Strain)))
  }

  /**
   * The values of a concatenation are those of each part, in order: every
   * record of the type contributes its value once, at its position.
   */
  lemma {:induction false} ValuesOfAppend(a: seq<Record>, b: seq<Record>, kind: SensorType)
    ensures ValuesOf(a + b, kind) == ValuesOf(a, kind) + ValuesOf(b, kind)
    decreases |a|
  {
    if a == [] {
      assert a + b == b;
    } else {
      var first := if a[0].sensorType == kind then [a[0].value] else [];
      assert (a + b)[0] == a[0];
      assert (a + b)[1..] == a[1..] + b;
      assert ValuesOf(a + b, kind) == first + ValuesOf(a[1..] + b, kind);
      assert ValuesOf(a, kind) == first + ValuesOf(a[1..], kind);
      ValuesOfAppend(a[1..], b, kind);
      assert first + (ValuesOf(a[1..], kind) + ValuesOf(b, kind))
          == first + ValuesOf(a[1..], kind) + ValuesOf(b, kind);
    }
  }

  /** One record contributes its value exactly when it has the type. */
  lemma ValuesOfOne(r: Record, kind: SensorType)
    ensures ValuesOf([r], kind) == if r.sensorType == kind then [r.value] else []
  {
    assert [r][1..] == [];
  }

  /** The platforms listed for a prefix of the input lead the full list. */
  lemma {:induction false} DistinctPrefix(s: seq<Platform>, k: nat)
    requires k <= |s|
    ensures Distinct(s[..k]) <= Distinct(s)
    decreases |s| - k
  {
    if k < |s| {
      var init := s[..|s| - 1];
      assert init[..k] == s[..k];
      DistinctPrefix(init, k);
    } else {
      assert s[..k] == s;
    }
  }

  /**
   * First-appearance order: when `a` occurs at position k and `b` occurs only
   * after k, `a` is listed before `b`.
   */
  lemma DistinctOrder(s: seq<Platform>, k: nat, b: Platform)
    requires k < |s| && b in s && b !in s[..k + 1]
    ensures exists i, j :: 0 <= i < j < |Distinct(s)| && Distinct(s)[i] == s[k] && Distinct(s)[j] == b
  {
    var r := Distinct(s);
    var head := Distinct(s[..k + 1]);
    DistinctPrefix(s, k + 1);
    assert s[k] in s[..k + 1];
    var i :| 0 <= i < |head| && head[i] == s[k];
    var j :| 0 <= j < |r| && r[j] == b;
    assert forall m :: 0 <= m < |head| ==> r[m] == head[m];
    assert b !in head;
    assert r[i] == s[k];
  }

  /**
   * The platforms of a batch are listed in the order each first appears in
   * the records.
   */
  lemma PlatformsInFirstAppearanceOrder(data: seq<Record>, k: nat, p: Platform)
    requires k < |data| && (exists r :: r in data && r.platform == p)
    requires forall m :: 0 <= m <= k ==> data[m].platform != p
    ensures exists i, j ::
      0 <= i < j < |PlatformsOf(data)| && PlatformsOf(data)[i] == data[k].platform && PlatformsOf(data)[j] == p
  {
    var all := seq(|data|, n requires 0 <= n < |data| => data[n].platform);
    assert PlatformsOf(data) == Distinct(all);
    var r :| r in data && r.platform == p;
    var n :| 0 <= n < |data| && data[n] == r;
    assert all[n] == p;
    assert forall m :: 0 <= m <= k ==> all[m] == data[m].platform;
    DistinctOrder(all, k, p);
  }

  /** Bounds on every element bound the sum. */
  lemma {:induction false} SumBetween(vs: seq<real>, lo: real, hi: real)
    requires forall v :: v in vs ==> lo <= v <= hi
    ensures (|vs| as real) * lo <= Sum(vs) <= (|vs| as real) * hi
  {
    if vs != [] {
      assert forall v :: v in vs[1..] ==> v in vs;
      SumBetween(vs[1..], lo, hi);
      assert lo <= vs[0] <= hi by { assert vs[0] in vs; }
      assert Sum(vs) == vs[0] + Sum(vs[1..]);
      var m := |vs[1..]| as real;
      assert |vs| as real == m + 1.0;
      assert (m + 1.0) * lo == m * lo + lo;
      assert (m + 1.0) * hi == m * hi + hi;
    }
  }

  lemma QuotientBetween(x: real, n: real, lo: real, hi: real)
    requires n > 0.0 && n * lo <= x <= n * hi
    ensures lo <= x / n <= hi
  {
    assert (x / n) * n == x;
  }

  /** The mean lies between the least and the greatest value. */
  lemma MeanBetween(vs: seq<real>)
    requires vs != []
    ensures Minimum(vs) <= Mean(vs) <= Maximum(vs)
  {
    var n := |vs| as real;
    SumBetween(vs, Minimum(vs), Maximum(vs));
    QuotientBetween(Sum(vs), n, Minimum(vs), Maximum(vs));
  }

  /**
   * In a batch that has a summary, the statistics of one type are all `None`
   * exactly when no record has that type.
   */
  lemma StatsAbsentIffNoRecord(data: seq<Record>, kind: SensorType)
    requires data != []
    ensures var s := StatsOf(data, kind);
      && (s.min.None? <==> forall r :: r in data ==> r.sensorType != kind)
      && s.max.None? == s.min.None? && s.avg.None? == s.min.None?
  {
    var vs := ValuesOf(data, kind);
    if vs != [] {
      assert vs[0] in vs;
    }
    assert forall r :: r in data && r.sensorType == kind ==> r.value in vs;
  }

  /**
   * When some record has the type, min and max are values of that type
   * bounding all of them, avg is their arithmetic mean, and min <= avg <= max.
   */
  lemma StatsBounds(data: seq<Record>, kind: SensorType, r0: Record)
    requires r0 in data && r0.sensorType == kind
    ensures var s := StatsOf(data, kind);
      && s.min.Some? && s.max.Some? && s.avg.Some?
      && (exists r :: r in data && r.sensorType == kind && r.value == s.min.value)
      && (exists r :: r in data && r.sensorType == kind && r.value == s.max.value)
      && (forall r :: r in data && r.sensorType == kind ==> s.min.value <= r.value <= s.max.value)
      && s.avg.value == Sum(ValuesOf(data, kind)) / (|ValuesOf(data, kind)| as real)
      && s.min.value <= s.avg.value <= s.max.value
  {
    var vs := ValuesOf(data, kind);
    assert r0.value in vs;
    MeanBetween(vs);
    assert forall r :: r in data && r.sensorType == kind ==> r.value in vs;
  }

  /** Only temperature records: the strain statistics are all `None`. */
  lemma NoStrainNoStrainStats(data: seq<Record>)
    requires data != []
    requires forall r :: r in data ==> r.sensorType == Temperature
    ensures Summarize(data).Some? && Summarize(data).value.strainStats == Stats(None, None, None)
  {
    StatsAbsentIffNoRecord(data, Strain);
  }
}
