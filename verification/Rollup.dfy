/** The hourly rollup query of internal/retention/worker.go as a group-by over raw samples.
  * Times are seconds; readings that are absent or null are None. */
module Rollup {
  import opened Options

  const HOUR := 3600

  datatype Partition = Partition(mountpoint: string, used: Option<real>)

  datatype Interface = Interface(received: Option<int>, sent: Option<int>)

  /** One row of `telemetry` with the parts of its JSON that the query reads. */
  datatype Sample = Sample(agent: string, timestamp: int, cpu: Option<real>, memory: Option<real>,
                           partitions: seq<Partition>, interfaces: seq<Interface>)

  datatype Bucket = Bucket(agent: string, start: int)

  datatype Row = Row(cpuAvg: real, cpuMin: real, cpuMax: real, memoryAvg: real, memoryMin: real, memoryMax: real,
                     diskAvg: real, received: int, sent: int, count: nat)

  type Hourly = map<Bucket, Row>

  /** date_trunc('hour', t) */
  function HourOf(t: int): int {
    t - t % HOUR
  }

  function BucketOf(s: Sample): Bucket {
    Bucket(s.agent, HourOf(s.timestamp))
  }

  // ---------- Aggregates ----------

  /** The root partition's reading: the first partition mounted there decides. */
  function RootDisk(partitions: seq<Partition>): (r: Option<real>)
    ensures forall i ::
              (0 <= i < |partitions| && partitions[i].mountpoint == "/"
               && forall j :: 0 <= j < i ==> partitions[j].mountpoint != "/") ==>
                r == partitions[i].used
    ensures (forall i :: 0 <= i < |partitions| ==> partitions[i].mountpoint != "/") ==> r == None
  {
    if partitions == [] then None
    else if partitions[0].mountpoint == "/" then partitions[0].used
    else RootDisk(partitions[1..])
  }

  function SumReceived(interfaces: seq<Interface>): int {
    if interfaces == [] then 0 else interfaces[0].received.GetOr(0) + SumReceived(interfaces[1..])
  }

  function SumSent(interfaces: seq<Interface>): int {
    if interfaces == [] then 0 else interfaces[0].sent.GetOr(0) + SumSent(interfaces[1..])
  }

  /** The readings present in a column. */
  function Column(group: seq<Sample>, f: Sample -> Option<real>): seq<real> {
    if group == [] then []
    else
      var rest := Column(group[..|group| - 1], f);
      match f(group[|group| - 1])
      case None => rest
      case Some(x) => rest + [x]
  }

  function Total(group: seq<Sample>, f: Sample -> int): int {
    if group == [] then 0 else Total(group[..|group| - 1], f) + f(group[|group| - 1])
  }

  function Sum(xs: seq<real>): real {
    if xs == [] then 0.0 else Sum(xs[..|xs| - 1]) + xs[|xs| - 1]
  }

  /** COALESCE(AVG(...), 0), COALESCE(MIN(...), 0) and COALESCE(MAX(...), 0) */
  function Avg(xs: seq<real>): real {
    if xs == [] then 0.0 else Sum(xs) / (|xs| as real)
  }

  function Min(xs: seq<real>): real {
    if xs == [] then 0.0
    else if |xs| == 1 then xs[0]
    else var m := Min(xs[..|xs| - 1]); if xs[|xs| - 1] < m then xs[|xs| - 1] else m
  }

  function Max(xs: seq<real>): real {
    if xs == [] then 0.0
    else if |xs| == 1 then xs[0]
    else var m := Max(xs[..|xs| - 1]); if xs[|xs| - 1] > m then xs[|xs| - 1] else m
  }

  function Cpu(): Sample -> Option<real> {
    (s: Sample) => s.cpu
  }

  function Memory(): Sample -> Option<real> {
    (s: Sample) => s.memory
  }

  function Disk(): Sample -> Option<real> {
    (s: Sample) => RootDisk(s.partitions)
  }

  function Received(): Sample -> int {
    (s: Sample) => SumReceived(s.interfaces)
  }

  function Sent(): Sample -> int {
    (s: Sample) => SumSent(s.interfaces)
  }

  function Aggregate(group: seq<Sample>): Row {
    var cpu, memory, disk := Column(group, Cpu()), Column(group, Memory()), Column(group, Disk());
    Row(Avg(cpu), Min(cpu), Max(cpu), Avg(memory), Min(memory), Max(memory), Avg(disk),
        Total(group, Received()), Total(group, Sent()), |group|)
  }

  // ---------- Grouping ----------

  /** The samples of one bucket, in insertion order. */
  function Group(samples: seq<Sample>, b: Bucket): seq<Sample> {
    if samples == [] then []
    else
      var rest := Group(samples[..|samples| - 1], b);
      if BucketOf(samples[|samples| - 1]) == b then rest + [samples[|samples| - 1]] else rest
  }

  /** The samples no older than `t`, and the samples older than `t`. */
  function From(samples: seq<Sample>, t: int): seq<Sample> {
    if samples == [] then []
    else
      var rest := From(samples[..|samples| - 1], t);
      if samples[|samples| - 1].timestamp >= t then rest + [samples[|samples| - 1]] else rest
  }

  function Until(samples: seq<Sample>, t: int): seq<Sample> {
    if samples == [] then []
    else
      var rest := Until(samples[..|samples| - 1], t);
      if samples[|samples| - 1].timestamp < t then rest + [samples[|samples| - 1]] else rest
  }

  function Buckets(samples: seq<Sample>): set<Bucket> {
    set s | s in samples :: BucketOf(s)
  }

  /** The upsert: every bucket with samples among those selected gets their aggregate. */
  function Upsert(selected: seq<Sample>, hourly: Hourly): Hourly {
    hourly + map b | b in Buckets(selected) :: Aggregate(Group(selected, b))
  }

  /** The query selects the samples of the closed hours. */
  function RollupHourly(raw: seq<Sample>, hourly: Hourly, now: int): Hourly {
    Upsert(Until(raw, HourOf(now)), hourly)
  }

  /** DELETE ... WHERE timestamp < cutoff */
  function Purge(raw: seq<Sample>, cutoff: int): seq<Sample> {
    From(raw, cutoff)
  }

  // ---------- Facts about grouping ----------

  lemma GroupSnoc(samples: seq<Sample>, s: Sample, b: Bucket)
    ensures Group(samples + [s], b) == if BucketOf(s) == b then Group(samples, b) + [s] else Group(samples, b)
  {
    assert (samples + [s])[..|samples|] == samples;
  }

  lemma {:induction false} GroupConcat(xs: seq<Sample>, ys: seq<Sample>, b: Bucket)
    ensures Group(xs + ys, b) == Group(xs, b) + Group(ys, b)
  {
    if ys == [] {
      assert xs + ys == xs;
    } else {
      var n := |ys| - 1;
      assert xs + ys == (xs + ys[..n]) + [ys[n]];
      GroupConcat(xs, ys[..n], b);
      GroupSnoc(xs + ys[..n], ys[n], b);
    }
  }

  lemma {:induction false} GroupMembers(samples: seq<Sample>, b: Bucket)
    ensures Group(samples, b) != [] <==> b in Buckets(samples)
    ensures forall s :: s in Group(samples, b) <==> s in samples && BucketOf(s) == b
  {
    if samples == [] {
    } else {
      var n := |samples| - 1;
      GroupMembers(samples[..n], b);
      assert samples == samples[..n] + [samples[n]];
    }
  }

  lemma GroupOccupied(samples: seq<Sample>, b: Bucket)
    ensures Group(samples, b) != [] <==> b in Buckets(samples)
  {
    GroupMembers(samples, b);
  }

  /** A closed bucket's samples all lie before the open hour. */
  lemma {:induction false} GroupOfClosed(samples: seq<Sample>, t: int, b: Bucket)
    requires t % HOUR == 0
    ensures Group(Until(samples, t), b) == if b.start < t then Group(samples, b) else []
  {
    if samples == [] {
    } else {
      var n := |samples| - 1;
      GroupOfClosed(samples[..n], t, b);
      if samples[n].timestamp < t {
        GroupSnoc(Until(samples[..n], t), samples[n], b);
      }
      HourBelow(samples[n].timestamp, t);
    }
  }

  lemma HourBelow(x: int, t: int)
    requires t % HOUR == 0
    ensures HourOf(x) < t <==> x < t
    ensures HourOf(x) % HOUR == 0 && HourOf(x) <= x < HourOf(x) + HOUR
  {}

  /** What one rollup does to one bucket. */
  lemma RollupBucket(raw: seq<Sample>, hourly: Hourly, now: int, b: Bucket)
    ensures var hourly' := RollupHourly(raw, hourly, now);
            if b.start < HourOf(now) && Group(raw, b) != []
            then b in hourly' && hourly'[b] == Aggregate(Group(raw, b))
            else (b in hourly' <==> b in hourly) && (b in hourly ==> hourly'[b] == hourly[b])
  {
    var closed := Until(raw, HourOf(now));
    GroupOfClosed(raw, HourOf(now), b);
    GroupOccupied(closed, b);
    UpsertBucket(closed, hourly, b);
  }

  lemma UpsertBucket(selected: seq<Sample>, hourly: Hourly, b: Bucket)
    ensures var hourly' := Upsert(selected, hourly);
            if b in Buckets(selected) then b in hourly' && hourly'[b] == Aggregate(Group(selected, b))
            else (b in hourly' <==> b in hourly) && (b in hourly ==> hourly'[b] == hourly[b])
  {}

  lemma FromSnoc(samples: seq<Sample>, s: Sample, t: int)
    ensures From(samples + [s], t) == if s.timestamp >= t then From(samples, t) + [s] else From(samples, t)
  {
    assert (samples + [s])[..|samples|] == samples;
  }

  lemma {:induction false} FromMembers(samples: seq<Sample>, t: int)
    ensures forall s :: s in From(samples, t) <==> s in samples && s.timestamp >= t
  {
    if samples == [] {
    } else {
      var init, last := samples[..|samples| - 1], samples[|samples| - 1];
      assert samples == init + [last];
      FromMembers(init, t);
    }
  }

  /** A purge at `cutoff` keeps of a bucket what is no older. */
  lemma {:induction false} GroupOfPurged(raw: seq<Sample>, cutoff: int, b: Bucket)
    ensures Group(Purge(raw, cutoff), b) == From(Group(raw, b), cutoff)
  {
    if raw == [] {
    } else {
      var init, s := raw[..|raw| - 1], raw[|raw| - 1];
      assert raw == init + [s];
      GroupOfPurged(init, cutoff, b);
      FromSnoc(init, s, cutoff);
      GroupSnoc(init, s, b);
      if BucketOf(s) == b {
        FromSnoc(Group(init, b), s, cutoff);
      }
      if s.timestamp >= cutoff {
        GroupSnoc(From(init, cutoff), s, b);
      }
    }
  }

  // ---------- Rows ----------

  lemma {:induction false} MinMaxBound(xs: seq<real>)
    requires xs != []
    ensures forall i :: 0 <= i < |xs| ==> Min(xs) <= xs[i] <= Max(xs)
  {
    if |xs| == 1 {
    } else {
      var init := xs[..|xs| - 1];
      MinMaxBound(init);
      assert forall i :: 0 <= i < |init| ==> xs[i] == init[i];
    }
  }

  lemma {:induction false} SumBetween(xs: seq<real>, low: real, high: real)
    requires forall i :: 0 <= i < |xs| ==> low <= xs[i] <= high
    ensures low * (|xs| as real) <= Sum(xs) <= high * (|xs| as real)
  {
    if xs == [] {
    } else {
      var n := |xs| - 1;
      SumBetween(xs[..n], low, high);
      assert low * ((n + 1) as real) == low * (n as real) + low;
      assert high * ((n + 1) as real) == high * (n as real) + high;
    }
  }

  lemma Cancel(a: real, b: real, r: real)
    requires r > 0.0 && a * r <= b * r
    ensures a <= b
  {
    assert a > b ==> (a - b) * r > 0.0;
  }

  lemma Quotient(total: real, low: real, high: real, n: nat)
    requires n > 0 && low * (n as real) <= total <= high * (n as real)
    ensures low <= total / (n as real) <= high
  {
    var r := n as real;
    assert (total / r) * r == total;
    Cancel(low, total / r, r);
    Cancel(total / r, high, r);
  }

  /** In every column the minimum, the average and the maximum are in order, also when readings are
    * missing from some samples or from all of them. */
  lemma ColumnOrdered(xs: seq<real>)
    ensures Min(xs) <= Avg(xs) <= Max(xs)
  {
    if xs != [] {
      MinMaxBound(xs);
      SumBetween(xs, Min(xs), Max(xs));
      Quotient(Sum(xs), Min(xs), Max(xs), |xs|);
    }
  }

  /** Every row a rollup writes is ordered, and counts exactly its bucket's samples. */
  lemma RolledRowOrdered(raw: seq<Sample>, hourly: Hourly, now: int, b: Bucket)
    requires b in Buckets(Until(raw, HourOf(now)))
    ensures var hourly' := RollupHourly(raw, hourly, now);
            && b in hourly'
            && hourly'[b].cpuMin <= hourly'[b].cpuAvg <= hourly'[b].cpuMax
            && hourly'[b].memoryMin <= hourly'[b].memoryAvg <= hourly'[b].memoryMax
            && hourly'[b].count == |Group(raw, b)| > 0
  {
    GroupMembers(Until(raw, HourOf(now)), b);
    GroupOfClosed(raw, HourOf(now), b);
    RollupBucket(raw, hourly, now, b);
    var group := Group(raw, b);
    ColumnOrdered(Column(group, Cpu()));
    ColumnOrdered(Column(group, Memory()));
  }

  /** Rolling up again within the hour, over the same samples, changes nothing. */
  lemma RollupIdempotent(raw: seq<Sample>, hourly: Hourly, now: int, later: int)
    requires HourOf(now) == HourOf(later)
    ensures RollupHourly(raw, RollupHourly(raw, hourly, now), later) == RollupHourly(raw, hourly, now)
  {}

  // ---------- What the columns mean ----------

  /** Some sample of the group has the reading `x`. */
  ghost predicate Reads(group: seq<Sample>, f: Sample -> Option<real>, x: real) {
    exists i :: 0 <= i < |group| && f(group[i]) == Some(x)
  }

  lemma {:induction false} ColumnMembers(group: seq<Sample>, f: Sample -> Option<real>, x: real)
    ensures x in Column(group, f) <==> Reads(group, f, x)
  {
    if group == [] {
    } else {
      var n := |group| - 1;
      ColumnMembers(group[..n], f, x);
      assert forall i :: 0 <= i < n ==> group[..n][i] == group[i];
      assert f(group[n]) == Some(x) || f(group[n]) != Some(x);
    }
  }

  lemma {:induction false} ExtremesAttained(xs: seq<real>)
    requires xs != []
    ensures Min(xs) in xs && Max(xs) in xs
  {
    if |xs| == 1 {
    } else {
      var init := xs[..|xs| - 1];
      ExtremesAttained(init);
      assert xs == init + [xs[|xs| - 1]];
    }
  }

  /** `low` and `high` are the least and the greatest reading `f` finds in the group; without any
    * reading both are zero. */
  ghost predicate Extremes(group: seq<Sample>, f: Sample -> Option<real>, low: real, high: real) {
    && (forall x :: Reads(group, f, x) ==> low <= x <= high)
    && ((Reads(group, f, low) && Reads(group, f, high))
        || ((forall x :: !Reads(group, f, x)) && low == high == 0.0))
  }

  /** `avg` times the number of readings is their sum; without any reading it is zero. */
  ghost predicate Mean(xs: seq<real>, avg: real) {
    avg * (|xs| as real) == Sum(xs) && (xs == [] ==> avg == 0.0)
  }

  lemma AvgIsMean(xs: seq<real>)
    ensures Mean(xs, Avg(xs))
  {}

  lemma ColumnExtremes(group: seq<Sample>, f: Sample -> Option<real>, xs: seq<real>)
    requires xs == Column(group, f)
    ensures Extremes(group, f, Min(xs), Max(xs))
  {
    forall x ensures Reads(group, f, x) <==> x in xs {
      ColumnMembers(group, f, x);
    }
    if xs != [] {
      ExtremesAttained(xs);
      forall x | x in xs ensures Min(xs) <= x <= Max(xs) {
        MinMaxBound(xs);
      }
    }
  }

  /** A rolled row holds the extremes and the mean of the CPU and memory readings of its bucket's
    * samples, and the mean of their root-disk readings. */
  lemma RowSummarises(group: seq<Sample>)
    ensures var row := Aggregate(group);
            && Extremes(group, Cpu(), row.cpuMin, row.cpuMax) && Mean(Column(group, Cpu()), row.cpuAvg)
            && Extremes(group, Memory(), row.memoryMin, row.memoryMax) && Mean(Column(group, Memory()), row.memoryAvg)
            && Mean(Column(group, Disk()), row.diskAvg)
  {
    ColumnExtremes(group, Cpu(), Column(group, Cpu()));
    ColumnExtremes(group, Memory(), Column(group, Memory()));
    AvgIsMean(Column(group, Cpu()));
    AvgIsMean(Column(group, Memory()));
    AvgIsMean(Column(group, Disk()));
  }

  // ---------- Rows of parts ----------

  /** An hour has 3600 seconds, and a time lies in the hour that HourOf names. */
  lemma HourStarts(t: int)
    ensures HourOf(t) % 3600 == 0 && t - 3600 < HourOf(t) <= t
  {}

  lemma SumOne(x: real)
    ensures Sum([x]) == x && Avg([x]) == x && Min([x]) == x && Max([x]) == x
  {
    assert [x][..0] == [];
    assert Sum([]) == 0.0;
    assert Sum([x]) / 1.0 == x;
  }

  lemma {:induction false} SumConcat(xs: seq<real>, ys: seq<real>)
    ensures Sum(xs + ys) == Sum(xs) + Sum(ys)
  {
    if ys == [] {
      assert xs + ys == xs;
    } else {
      var n := |ys| - 1;
      SumConcat(xs, ys[..n]);
      assert (xs + ys)[..|xs| + n] == xs + ys[..n];
    }
  }

  /** `avg` is the average of `m` readings of average `a` and `n` readings of average `b`. */
  ghost predicate Weighted(m: nat, a: real, n: nat, b: real, avg: real) {
    avg * ((m + n) as real) == a * (m as real) + b * (n as real)
  }

  lemma AvgOfParts(all: seq<real>, xs: seq<real>, ys: seq<real>)
    requires all == xs + ys
    ensures Weighted(|xs|, Avg(xs), |ys|, Avg(ys), Avg(all))
  {
    SumConcat(xs, ys);
    AvgIsMean(xs);
    AvgIsMean(ys);
    AvgIsMean(all);
  }

  lemma ColumnOne(s: Sample, f: Sample -> Option<real>)
    ensures Column([s], f) == match f(s) case None => [] case Some(x) => [x]
  {
    assert [s][..0] == [];
  }

  lemma {:induction false} ColumnConcat(xs: seq<Sample>, ys: seq<Sample>, f: Sample -> Option<real>)
    ensures Column(xs + ys, f) == Column(xs, f) + Column(ys, f)
  {
    if ys == [] {
      assert xs + ys == xs;
    } else {
      var n := |ys| - 1;
      ColumnConcat(xs, ys[..n], f);
      assert (xs + ys)[..|xs| + n] == xs + ys[..n];
    }
  }

  lemma TotalOne(s: Sample, f: Sample -> int)
    ensures Total([s], f) == f(s)
  {
    assert [s][..0] == [];
  }

  lemma {:induction false} TotalConcat(xs: seq<Sample>, ys: seq<Sample>, f: Sample -> int)
    ensures Total(xs + ys, f) == Total(xs, f) + Total(ys, f)
  {
    if ys == [] {
      assert xs + ys == xs;
    } else {
      var n := |ys| - 1;
      TotalConcat(xs, ys[..n], f);
      assert (xs + ys)[..|xs| + n] == xs + ys[..n];
    }
  }

  /** An absent counter counts as zero, and the counters of a sample's interfaces add up. */
  lemma InterfaceBytes(i: Interface)
    ensures SumReceived([i]) == (if i.received.Some? then i.received.value else 0)
    ensures SumSent([i]) == (if i.sent.Some? then i.sent.value else 0)
  {
    assert [i][1..] == [];
  }

  lemma {:induction false} InterfacesConcat(xs: seq<Interface>, ys: seq<Interface>)
    ensures SumReceived(xs + ys) == SumReceived(xs) + SumReceived(ys)
    ensures SumSent(xs + ys) == SumSent(xs) + SumSent(ys)
  {
    if xs == [] {
      assert xs + ys == ys;
    } else {
      InterfacesConcat(xs[1..], ys);
      assert (xs + ys)[1..] == xs[1..] + ys;
    }
  }

  /** The row of a single sample holds that sample's own readings, zero for those it lacks. */
  lemma RowOfOne(s: Sample)
    ensures var row := Aggregate([s]);
            && row.cpuAvg == row.cpuMin == row.cpuMax == s.cpu.GetOr(0.0)
            && row.memoryAvg == row.memoryMin == row.memoryMax == s.memory.GetOr(0.0)
            && row.diskAvg == RootDisk(s.partitions).GetOr(0.0)
            && row.received == SumReceived(s.interfaces) && row.sent == SumSent(s.interfaces) && row.count == 1
  {
    ColumnOne(s, Cpu());
    ColumnOne(s, Memory());
    ColumnOne(s, Disk());
    SumOne(s.cpu.GetOr(0.0));
    SumOne(s.memory.GetOr(0.0));
    SumOne(RootDisk(s.partitions).GetOr(0.0));
    TotalOne(s, Received());
    TotalOne(s, Sent());
  }

  /** How many samples of the group have a reading. */
  function Readings(group: seq<Sample>, f: Sample -> Option<real>): nat {
    |Column(group, f)|
  }

  lemma ColumnAvgOfParts(xs: seq<Sample>, ys: seq<Sample>, f: Sample -> Option<real>)
    ensures Weighted(Readings(xs, f), Avg(Column(xs, f)), Readings(ys, f), Avg(Column(ys, f)), Avg(Column(xs + ys, f)))
  {
    ColumnConcat(xs, ys, f);
    AvgOfParts(Column(xs + ys, f), Column(xs, f), Column(ys, f));
  }

  /** The row of two parts of a group: counts and bytes add up, and the averages combine weighted by the
    * number of readings. With RowOfOne this fixes every row. */
  lemma RowOfParts(xs: seq<Sample>, ys: seq<Sample>)
    ensures var row, p, q := Aggregate(xs + ys), Aggregate(xs), Aggregate(ys);
            && row.count == p.count + q.count && row.received == p.received + q.received && row.sent == p.sent + q.sent
            && Weighted(Readings(xs, Cpu()), p.cpuAvg, Readings(ys, Cpu()), q.cpuAvg, row.cpuAvg)
            && Weighted(Readings(xs, Memory()), p.memoryAvg, Readings(ys, Memory()), q.memoryAvg, row.memoryAvg)
            && Weighted(Readings(xs, Disk()), p.diskAvg, Readings(ys, Disk()), q.diskAvg, row.diskAvg)
  {
    ColumnAvgOfParts(xs, ys, Cpu());
    ColumnAvgOfParts(xs, ys, Memory());
    ColumnAvgOfParts(xs, ys, Disk());
    TotalConcat(xs, ys, Received());
    TotalConcat(xs, ys, Sent());
  }

  // ---------- Conservation ----------

  /** A sum over buckets, in some fixed order. */
  ghost function AnyOf(bs: set<Bucket>): Bucket
    requires bs != {}
  {
    var b :| b in bs; b
  }

  ghost function SumOver(bs: set<Bucket>, f: Bucket -> int): int {
    if bs == {} then 0 else f(AnyOf(bs)) + SumOver(bs - {AnyOf(bs)}, f)
  }

  function Without(samples: seq<Sample>, b: Bucket): seq<Sample> {
    if samples == [] then []
    else
      var rest := Without(samples[..|samples| - 1], b);
      if BucketOf(samples[|samples| - 1]) == b then rest else rest + [samples[|samples| - 1]]
  }

  lemma TotalSnoc(xs: seq<Sample>, x: Sample, f: Sample -> int)
    ensures Total(xs + [x], f) == Total(xs, f) + f(x)
  {
    assert (xs + [x])[..|xs|] == xs;
  }

  lemma {:induction false} WithoutMembers(samples: seq<Sample>, b: Bucket)
    ensures |Without(samples, b)| + |Group(samples, b)| == |samples|
    ensures forall s :: s in Without(samples, b) <==> s in samples && BucketOf(s) != b
  {
    if samples == [] {
    } else {
      var init, s := samples[..|samples| - 1], samples[|samples| - 1];
      assert samples == init + [s];
      WithoutMembers(init, b);
    }
  }

  lemma WithoutBuckets(samples: seq<Sample>, b: Bucket)
    ensures Buckets(Without(samples, b)) == Buckets(samples) - {b}
  {
    WithoutMembers(samples, b);
  }

  lemma {:induction false} WithoutTotal(samples: seq<Sample>, b: Bucket, f: Sample -> int)
    ensures Total(samples, f) == Total(Without(samples, b), f) + Total(Group(samples, b), f)
  {
    if samples == [] {
    } else {
      var init, s := samples[..|samples| - 1], samples[|samples| - 1];
      WithoutTotal(init, b, f);
      if BucketOf(s) == b {
        TotalSnoc(Group(init, b), s, f);
      } else {
        TotalSnoc(Without(init, b), s, f);
      }
    }
  }

  lemma {:induction false} WithoutGroup(samples: seq<Sample>, b: Bucket, b': Bucket)
    requires b != b'
    ensures Group(Without(samples, b), b') == Group(samples, b')
  {
    if samples == [] {
    } else {
      var n := |samples| - 1;
      WithoutGroup(samples[..n], b, b');
      if BucketOf(samples[n]) != b {
        GroupSnoc(Without(samples[..n], b), samples[n], b');
      }
    }
  }

  /** What a column adds up bucket by bucket, it adds up over all samples. */
  lemma {:induction false} ColumnsCover(samples: seq<Sample>, f: Sample -> int, column: Bucket -> int)
    requires forall b :: b in Buckets(samples) ==> column(b) == Total(Group(samples, b), f)
    ensures SumOver(Buckets(samples), column) == Total(samples, f)
    decreases |samples|
  {
    if samples == [] {
    } else {
      assert BucketOf(samples[0]) in Buckets(samples);
      var b := AnyOf(Buckets(samples));
      var rest := Without(samples, b);
      WithoutMembers(samples, b);
      WithoutBuckets(samples, b);
      WithoutTotal(samples, b, f);
      GroupOccupied(samples, b);
      forall b' | b' in Buckets(rest) ensures column(b') == Total(Group(rest, b'), f) {
        WithoutGroup(samples, b, b');
      }
      ColumnsCover(rest, f, column);
    }
  }

  function One(): Sample -> int {
    (s: Sample) => 1
  }

  lemma {:induction false} TotalOnes(samples: seq<Sample>)
    ensures Total(samples, One()) == |samples|
  {
    if samples == [] {
    } else {
      TotalOnes(samples[..|samples| - 1]);
    }
  }

  function CountColumn(hourly: Hourly): Bucket -> int {
    (b: Bucket) => if b in hourly then hourly[b].count else 0
  }

  function ReceivedColumn(hourly: Hourly): Bucket -> int {
    (b: Bucket) => if b in hourly then hourly[b].received else 0
  }

  function SentColumn(hourly: Hourly): Bucket -> int {
    (b: Bucket) => if b in hourly then hourly[b].sent else 0
  }

  /** A row that aggregates a group carries the group's totals. */
  lemma RowTotals(hourly: Hourly, b: Bucket, group: seq<Sample>)
    requires b in hourly && hourly[b] == Aggregate(group)
    ensures CountColumn(hourly)(b) == Total(group, One())
    ensures ReceivedColumn(hourly)(b) == Total(group, Received())
    ensures SentColumn(hourly)(b) == Total(group, Sent())
  {
    TotalOnes(group);
  }

  lemma RowsTotal(closed: seq<Sample>, hourly: Hourly)
    requires forall b :: b in Buckets(closed) ==> b in hourly && hourly[b] == Aggregate(Group(closed, b))
    ensures SumOver(Buckets(closed), CountColumn(hourly)) == |closed|
    ensures SumOver(Buckets(closed), ReceivedColumn(hourly)) == Total(closed, Received())
    ensures SumOver(Buckets(closed), SentColumn(hourly)) == Total(closed, Sent())
  {
    forall b | b in Buckets(closed)
      ensures CountColumn(hourly)(b) == Total(Group(closed, b), One())
      ensures ReceivedColumn(hourly)(b) == Total(Group(closed, b), Received())
      ensures SentColumn(hourly)(b) == Total(Group(closed, b), Sent())
    {
      RowTotals(hourly, b, Group(closed, b));
    }
    ColumnsCover(closed, One(), CountColumn(hourly));
    ColumnsCover(closed, Received(), ReceivedColumn(hourly));
    ColumnsCover(closed, Sent(), SentColumn(hourly));
    TotalOnes(closed);
  }

  /** Just after a rollup the rows of the buckets with raw samples account for every closed-hour
    * sample, and for every byte those samples report, received and sent. */
  lemma RollupConserves(raw: seq<Sample>, hourly: Hourly, now: int)
    ensures var closed := Until(raw, HourOf(now));
            var hourly' := RollupHourly(raw, hourly, now);
            && SumOver(Buckets(closed), CountColumn(hourly')) == |closed|
            && SumOver(Buckets(closed), ReceivedColumn(hourly')) == Total(closed, Received())
            && SumOver(Buckets(closed), SentColumn(hourly')) == Total(closed, Sent())
  {
    var closed := Until(raw, HourOf(now));
    var hourly' := RollupHourly(raw, hourly, now);
    forall b | b in Buckets(closed) ensures b in hourly' && hourly'[b] == Aggregate(Group(closed, b)) {
      UpsertBucket(closed, hourly, b);
    }
    RowsTotal(closed, hourly');
  }
}
