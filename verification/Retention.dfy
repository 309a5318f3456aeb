/** The retention worker of internal/retention/worker.go: a rollup, then a purge, over and over,
  * with samples arriving in between. What remains of purged hours is their rolled-up row. */
module Retention {
  import opened Options
  import opened Rollup

  const DAY := 86400

  // ---------- The worker ----------

  /** The closed hours with samples have their aggregate, every other row is as it was. */
  ghost predicate RolledUp(raw: seq<Sample>, before: Hourly, after: Hourly, now: int) {
    forall b: Bucket ::
      if b.start < HourOf(now) && Group(raw, b) != []
      then b in after && after[b] == Aggregate(Group(raw, b))
      else (b in after <==> b in before) && (b in after ==> after[b] == before[b])
  }

  /** Exactly the samples from the cutoff on are left, in every bucket in their order. */
  ghost predicate Purged(before: seq<Sample>, after: seq<Sample>, cutoff: int) {
    && (forall s :: s in after <==> s in before && s.timestamp >= cutoff)
    && (forall b :: Group(after, b) == From(Group(before, b), cutoff))
  }

  class Worker {
    var telemetry: seq<Sample>
    var hourly: Hourly
    const retentionDays: int
    const interval: int

    constructor (retentionDays: int, interval: int)
      ensures this.retentionDays == (if retentionDays <= 0 then 30 else retentionDays)
      ensures this.interval == (if interval <= 0 then HOUR else interval)
      ensures telemetry == [] && hourly == map[]
    {
      this.retentionDays := if retentionDays <= 0 then 30 else retentionDays;
      this.interval := if interval <= 0 then HOUR else interval;
      telemetry, hourly := [], map[];
    }

    method ExecuteRollup(now: int, fails: bool) returns (ok: bool)
      modifies this`hourly
      ensures ok == !fails
      ensures !ok ==> hourly == old(hourly)
      ensures ok ==> hourly == RollupHourly(telemetry, old(hourly), now)
      ensures ok ==> RolledUp(telemetry, old(hourly), hourly, now)
    {
      if fails {
        return false;
      }
      forall b { RollupBucket(telemetry, hourly, now, b); }
      hourly := RollupHourly(telemetry, hourly, now);
      return true;
    }

    method PurgeOldTelemetry(now: int, fails: bool) returns (ok: bool)
      modifies this`telemetry
      ensures ok == !fails
      ensures !ok ==> telemetry == old(telemetry)
      ensures ok ==> telemetry == Purge(old(telemetry), now - retentionDays * DAY)
      ensures ok ==> Purged(old(telemetry), telemetry, now - retentionDays * 86400)
    {
      if fails {
        return false;
      }
      var cutoff := now - retentionDays * DAY;
      forall b { GroupOfPurged(telemetry, cutoff, b); }
      FromMembers(telemetry, cutoff);
      telemetry := Purge(telemetry, cutoff);
      return true;
    }

    /** The rollup sees every sample, the purge follows, and neither waits for the other to succeed:
      * in a world `w` with these tables the task is the operations of TaskOps. */
    method RunRetentionTask(rollupTime: int, purgeTime: int, rollupFails: bool, purgeFails: bool, ghost w: World)
      returns (ghost w': World)
      requires w.raw == telemetry && w.hourly == hourly
      modifies this
      ensures w' == ApplyAll(w, TaskOps(rollupTime, purgeTime - retentionDays * DAY, rollupFails, purgeFails))
      ensures telemetry == w'.raw && hourly == w'.hourly
      ensures !rollupFails ==> RolledUp(old(telemetry), old(hourly), hourly, rollupTime)
      ensures !purgeFails ==> Purged(old(telemetry), telemetry, purgeTime - retentionDays * 86400)
    {
      w' := ApplyAll(w, TaskOps(rollupTime, purgeTime - retentionDays * DAY, rollupFails, purgeFails));
      var rolled := ExecuteRollup(rollupTime, rollupFails);
      var purged := PurgeOldTelemetry(purgeTime, purgeFails);
      TaskOnTables(w, rollupTime, purgeTime - retentionDays * DAY, rollupFails, purgeFails);
    }
  }

  // ---------- Runs ----------

  /** The two tables, beside every sample ever stored (`ever`), how many of them the last rollup
    * could have seen (`seen`) and the hour it ran in. */
  datatype World = World(raw: seq<Sample>, hourly: Hourly, ever: seq<Sample>, seen: nat, rolled: Option<int>)

  datatype Op = Insert(s: Sample) | Roll(now: int) | Cut(cutoff: int)

  function Apply(w: World, op: Op): World {
    match op
    case Insert(s) => w.(raw := w.raw + [s], ever := w.ever + [s])
    case Roll(now) => w.(hourly := RollupHourly(w.raw, w.hourly, now), seen := |w.ever|, rolled := Some(HourOf(now)))
    case Cut(cutoff) => w.(raw := Purge(w.raw, cutoff))
  }

  function ApplyAll(w: World, ops: seq<Op>): World {
    if ops == [] then w else Apply(ApplyAll(w, ops[..|ops| - 1]), ops[|ops| - 1])
  }

  const EMPTY := World([], map[], [], 0, None)

  /** One retention task. */
  function TaskOps(rollupTime: int, cutoff: int, rollupFails: bool, purgeFails: bool): seq<Op> {
    (if rollupFails then [] else [Roll(rollupTime)]) + (if purgeFails then [] else [Cut(cutoff)])
  }

  lemma TaskOnTables(w: World, rollupTime: int, cutoff: int, rollupFails: bool, purgeFails: bool)
    ensures var w' := ApplyAll(w, TaskOps(rollupTime, cutoff, rollupFails, purgeFails));
            && w'.hourly == (if rollupFails then w.hourly else RollupHourly(w.raw, w.hourly, rollupTime))
            && w'.raw == (if purgeFails then w.raw else Purge(w.raw, cutoff))
  {
    var ops := TaskOps(rollupTime, cutoff, rollupFails, purgeFails);
    if ops != [] {
      var init := if rollupFails || purgeFails then [] else [Roll(rollupTime)];
      assert ops[..|ops| - 1] == init;
      assert init != [] ==> init[..0] == [] && ApplyAll(w, init) == Apply(w, Roll(rollupTime));
      assert ApplyAll(w, ops) == Apply(ApplyAll(w, init), ops[|ops| - 1]);
    }
  }

  /** No sample of the bucket has been purged. */
  ghost predicate Whole(w: World, b: Bucket) {
    Group(w.raw, b) == Group(w.ever, b)
  }

  /** The hour was closed at the last rollup, and that rollup could see all its samples. */
  ghost predicate Settled(w: World, b: Bucket) {
    && w.seen <= |w.ever| && w.rolled.Some? && b.start < w.rolled.value
    && Group(w.ever[..w.seen], b) == Group(w.ever, b)
  }

  ghost predicate Loses(raw: seq<Sample>, b: Bucket, cutoff: int) {
    exists i :: 0 <= i < |raw| && BucketOf(raw[i]) == b && raw[i].timestamp < cutoff
  }

  /** The row of a bucket closed at the last rollup tells of every sample it had by then. */
  ghost predicate Agrees(w: World, b: Bucket) {
    w.seen <= |w.ever| &&
    (w.rolled.Some? && b.start < w.rolled.value && Group(w.ever[..w.seen], b) != [] ==>
      b in w.hourly && w.hourly[b] == Aggregate(Group(w.ever[..w.seen], b)))
  }

  // ---------- Exactly which runs agree ----------

  /** A rollup overwrites the row from an incomplete bucket, or a purge takes samples that no rollup of
    * the closed hour has seen. */
  ghost predicate Harms(w: World, op: Op, b: Bucket) {
    match op
    case Insert(_) => false
    case Roll(now) => b.start < HourOf(now) && Group(w.raw, b) != [] && !Whole(w, b)
    case Cut(cutoff) => Loses(w.raw, b, cutoff) && !Settled(w, b)
  }

  ghost predicate HarmedAt(ops: seq<Op>, n: nat, b: Bucket) {
    n < |ops| && Harms(ApplyAll(EMPTY, ops[..n]), ops[n], b)
  }

  ghost predicate Harmed(ops: seq<Op>, b: Bucket) {
    exists n: nat :: HarmedAt(ops, n, b)
  }

  lemma HarmedSnoc(ops: seq<Op>, b: Bucket)
    requires ops != []
    ensures var n := |ops| - 1;
            Harmed(ops, b) <==> Harmed(ops[..n], b) || Harms(ApplyAll(EMPTY, ops[..n]), ops[n], b)
  {
    var n := |ops| - 1;
    forall m: nat | m < n ensures HarmedAt(ops, m, b) <==> HarmedAt(ops[..n], m, b) {
      assert ops[..n][..m] == ops[..m];
    }
    if m: nat :| HarmedAt(ops, m, b) {
      assert m < n ==> HarmedAt(ops[..n], m, b);
    }
    if m: nat :| HarmedAt(ops[..n], m, b) {
      assert HarmedAt(ops, m, b);
    }
    assert HarmedAt(ops, n, b) <==> Harms(ApplyAll(EMPTY, ops[..n]), ops[n], b);
  }

  /** The database's clock does not go back from one rollup to the next. */
  ghost predicate ClockForward(ops: seq<Op>) {
    forall i, j :: 0 <= i < j < |ops| && ops[i].Roll? && ops[j].Roll? ==> HourOf(ops[i].now) <= HourOf(ops[j].now)
  }

  lemma {:induction false} LastRoll(ops: seq<Op>)
    ensures var rolled := ApplyAll(EMPTY, ops).rolled;
            rolled.Some? ==> exists i :: 0 <= i < |ops| && ops[i].Roll? && rolled.value == HourOf(ops[i].now)
  {
    if ops == [] {
    } else {
      var n := |ops| - 1;
      LastRoll(ops[..n]);
      assert forall i :: 0 <= i < n ==> ops[..n][i] == ops[i];
    }
  }

  /** How a bucket's raw samples, row and history stand to each other, harmed or not. */
  ghost predicate Sized(w: World, b: Bucket) {
    && w.seen <= |w.ever|
    && |Group(w.raw, b)| <= |Group(w.ever, b)|
    && (|Group(w.raw, b)| == |Group(w.ever, b)| ==> Whole(w, b))
    && (b in w.hourly ==> w.rolled.Some? && b.start < w.rolled.value && Group(w.ever[..w.seen], b) != [])
  }

  /** Before any harm. */
  ghost predicate Sound(w: World, b: Bucket) {
    Sized(w, b) && Agrees(w, b) && (Whole(w, b) || Settled(w, b) || Group(w.raw, b) != [])
  }

  /** After it: some sample is gone for good, and the row, if any, counts too few. */
  ghost predicate Spoilt(w: World, b: Bucket) {
    Sized(w, b) && !Whole(w, b) && CountIn(w.hourly, b) < |Group(w.ever, b)|
  }

  lemma SeenGroup(w: World, b: Bucket)
    requires w.seen <= |w.ever|
    ensures Group(w.ever[..w.seen], b) <= Group(w.ever, b)
  {
    assert w.ever == w.ever[..w.seen] + w.ever[w.seen..];
    GroupConcat(w.ever[..w.seen], w.ever[w.seen..], b);
  }

  lemma InsertGroups(w: World, s: Sample, b: Bucket)
    requires w.seen <= |w.ever|
    ensures var w' := Apply(w, Insert(s));
            && w'.ever[..w.seen] == w.ever[..w.seen]
            && if BucketOf(s) == b
               then Group(w'.raw, b) == Group(w.raw, b) + [s] && Group(w'.ever, b) == Group(w.ever, b) + [s]
               else Group(w'.raw, b) == Group(w.raw, b) && Group(w'.ever, b) == Group(w.ever, b)
  {
    GroupSnoc(w.raw, s, b);
    GroupSnoc(w.ever, s, b);
  }

  lemma InsertStands(w: World, s: Sample, b: Bucket)
    requires Sized(w, b)
    ensures var w' := Apply(w, Insert(s));
            Sized(w', b) && (Sound(w, b) ==> Sound(w', b)) && (Spoilt(w, b) ==> Spoilt(w', b))
  {
    InsertGroups(w, s, b);
  }

  lemma RollStands(w: World, now: int, b: Bucket)
    requires Sized(w, b) && (w.rolled.Some? ==> w.rolled.value <= HourOf(now))
    ensures var w' := Apply(w, Roll(now));
            && Sized(w', b)
            && (Sound(w, b) ==> if Harms(w, Roll(now), b) then Spoilt(w', b) else Sound(w', b))
            && (Spoilt(w, b) ==> Spoilt(w', b))
  {
    RollupBucket(w.raw, w.hourly, now, b);
    SeenGroup(w, b);
    assert w.ever[..|w.ever|] == w.ever;
    assert Aggregate(Group(w.raw, b)).count == |Group(w.raw, b)|;
  }

  /** A purge leaves the bucket as it is, or takes some of its samples. */
  lemma PurgedGroup(raw: seq<Sample>, cutoff: int, b: Bucket)
    ensures var group, group' := Group(raw, b), Group(Purge(raw, cutoff), b);
            if Loses(raw, b, cutoff) then |group'| < |group| else group' == group
  {
    GroupOfPurged(raw, cutoff, b);
    GroupMembers(raw, b);
    var group := Group(raw, b);
    FromParts(group, cutoff);
    if i :| 0 <= i < |group| && group[i].timestamp < cutoff {
      assert group[i] in group;
      var k :| 0 <= k < |raw| && raw[k] == group[i];
      assert BucketOf(raw[k]) == b;
    }
    if k :| 0 <= k < |raw| && BucketOf(raw[k]) == b && raw[k].timestamp < cutoff {
      assert raw[k] in group;
    }
  }

  lemma CutStands(w: World, cutoff: int, b: Bucket)
    requires Sized(w, b)
    ensures var w' := Apply(w, Cut(cutoff));
            && Sized(w', b)
            && (Sound(w, b) ==> if Harms(w, Cut(cutoff), b) then Spoilt(w', b) else Sound(w', b))
            && (Spoilt(w, b) ==> Spoilt(w', b))
  {
    PurgedGroup(w.raw, cutoff, b);
    SeenGroup(w, b);
    if Sound(w, b) && b in w.hourly {
      assert w.hourly[b].count == |Group(w.ever[..w.seen], b)|;
    }
  }

  /** An op keeps a bucket sound or harms it, and harm is never undone. */
  lemma StepStands(w: World, op: Op, b: Bucket)
    requires Sized(w, b) && (op.Roll? && w.rolled.Some? ==> w.rolled.value <= HourOf(op.now))
    ensures var w' := Apply(w, op);
            && Sized(w', b)
            && (Sound(w, b) ==> if Harms(w, op, b) then Spoilt(w', b) else Sound(w', b))
            && (Spoilt(w, b) ==> Spoilt(w', b))
  {
    match op
    case Insert(s) => InsertStands(w, s, b);
    case Roll(now) => RollStands(w, now, b);
    case Cut(cutoff) => CutStands(w, cutoff, b);
  }

  lemma {:induction false} RunStands(ops: seq<Op>, b: Bucket)
    requires ClockForward(ops)
    ensures var w := ApplyAll(EMPTY, ops);
            Sized(w, b) && if Harmed(ops, b) then Spoilt(w, b) else Sound(w, b)
  {
    if ops == [] {
    } else {
      var n := |ops| - 1;
      var w := ApplyAll(EMPTY, ops[..n]);
      assert forall i :: 0 <= i < n ==> ops[..n][i] == ops[i];
      RunStands(ops[..n], b);
      LastRoll(ops[..n]);
      HarmedSnoc(ops, b);
      StepStands(w, ops[n], b);
    }
  }

  /** Over every run without harm to a bucket, whatever fails, arrives late or is purged: if its hour was
    * closed at the last rollup, its row is the aggregate over all samples ever stored in it by that
    * rollup, purged ones included. */
  lemma RollupAgreesWithHistory(ops: seq<Op>, b: Bucket)
    requires ClockForward(ops) && !Harmed(ops, b)
    ensures var w := ApplyAll(EMPTY, ops);
            && w.seen <= |w.ever|
            && var group := Group(w.ever[..w.seen], b);
            (w.rolled.Some? && b.start < w.rolled.value && group != [] ==>
               b in w.hourly && w.hourly[b] == Aggregate(group))
  {
    RunStands(ops, b);
  }

  /** After a rollup the row of a closed hour that ever had samples agrees with its full history exactly
    * when nothing in the run harmed it. */
  lemma RollupAgreesIff(ops: seq<Op>, now: int, b: Bucket)
    requires ClockForward(ops + [Roll(now)])
    requires b.start < HourOf(now) && Group(ApplyAll(EMPTY, ops).ever, b) != []
    ensures var w := ApplyAll(EMPTY, ops + [Roll(now)]);
            (b in w.hourly && w.hourly[b] == Aggregate(Group(w.ever, b))) <==> !Harmed(ops + [Roll(now)], b)
  {
    var all := ops + [Roll(now)];
    assert all[..|ops|] == ops;
    RunStands(all, b);
    var w := ApplyAll(EMPTY, all);
    assert w.ever[..w.seen] == w.ever;
    assert Aggregate(Group(w.ever, b)).count == |Group(w.ever, b)|;
  }

  // ---------- Runs that lose samples ----------

  lemma TwoOps(w: World, first: seq<Op>, op: Op)
    ensures ApplyAll(w, first + [op]) == Apply(ApplyAll(w, first), op)
  {
    assert (first + [op])[..|first|] == first;
  }

  /** The first rollup that could see a sample fails, the purge of the same task goes on: the hour never
    * gets a row, however the cutoff lies. */
  lemma FailedRollupLosesHour(s: Sample, rollupTime: int, cutoff: int, now: int)
    requires s.timestamp < cutoff && HourOf(s.timestamp) < HourOf(now)
    ensures var ops := [Insert(s)] + TaskOps(rollupTime, cutoff, true, false) + [Roll(now)];
            var w := ApplyAll(EMPTY, ops);
            w.ever == [s] && BucketOf(s) !in w.hourly
  {
    var ops := [Insert(s)] + [Cut(cutoff)];
    TwoOps(EMPTY, [], Insert(s));
    assert [] + [Insert(s)] == [Insert(s)];
    TwoOps(EMPTY, [Insert(s)], Cut(cutoff));
    TwoOps(EMPTY, ops, Roll(now));
    FromSnoc([], s, cutoff);
    assert [] + [s] == [s];
    var w := ApplyAll(EMPTY, ops);
    assert w.raw == [];
    RollupBucket(w.raw, w.hourly, now, BucketOf(s));
  }

  lemma GroupOfOne(s: Sample)
    ensures Group([s], BucketOf(s)) == [s] && Aggregate([s]).count == 1
  {
    GroupSnoc([], s, BucketOf(s));
    assert [] + [s] == [s];
  }

  lemma GroupOfTwo(s: Sample, late: Sample)
    requires BucketOf(late) == BucketOf(s)
    ensures Group([s] + [late], BucketOf(s)) == [s, late] && [s] + [late] == [s, late]
  {
    GroupOfOne(s);
    GroupSnoc([s], late, BucketOf(s));
  }

  lemma ThreeOps(w: World, ops: seq<Op>, first: Op, second: Op)
    ensures ApplyAll(w, ops + [first] + [second]) == Apply(Apply(ApplyAll(w, ops), first), second)
  {
    TwoOps(w, ops, first);
    TwoOps(w, ops + [first], second);
  }

  /** One sample, rolled up and purged. */
  lemma RolledAndPurged(s: Sample, first: int, cutoff: int)
    requires s.timestamp < cutoff && HourOf(s.timestamp) < HourOf(first)
    ensures var w := ApplyAll(EMPTY, [Insert(s)] + TaskOps(first, cutoff, false, false));
            w.raw == [] && w.ever == [s] && CountIn(w.hourly, BucketOf(s)) == 1
  {
    TwoOps(EMPTY, [], Insert(s));
    assert [] + [Insert(s)] == [Insert(s)] && [] + [s] == [s];
    TwoOps(EMPTY, [Insert(s)], Roll(first));
    TwoOps(EMPTY, [Insert(s)] + [Roll(first)], Cut(cutoff));
    assert [Insert(s)] + TaskOps(first, cutoff, false, false) == ([Insert(s)] + [Roll(first)]) + [Cut(cutoff)];
    GroupOfOne(s);
    RollupBucket([s], map[], first, BucketOf(s));
    FromSnoc([], s, cutoff);
  }

  /** The only sample left of a bucket makes its row. */
  lemma LeftAlone(w: World, late: Sample, second: int)
    requires w.raw == [] && HourOf(late.timestamp) < HourOf(second)
    ensures var w' := Apply(Apply(w, Insert(late)), Roll(second));
            w'.ever == w.ever + [late] && CountIn(w'.hourly, BucketOf(late)) == 1
  {
    GroupOfOne(late);
    assert [] + [late] == [late];
    RollupBucket([late], w.hourly, second, BucketOf(late));
  }

  /** A sample that arrives after its hour was rolled up and purged overwrites the row by itself. */
  lemma LateSampleLosesHour(s: Sample, late: Sample, first: int, cutoff: int, second: int)
    requires BucketOf(late) == BucketOf(s) && s.timestamp < cutoff && HourOf(s.timestamp) < HourOf(first) <= HourOf(second)
    ensures var b := BucketOf(s);
            var before := [Insert(s)] + TaskOps(first, cutoff, false, false);
            var w, w' := ApplyAll(EMPTY, before), ApplyAll(EMPTY, before + [Insert(late)] + [Roll(second)]);
            && CountIn(w.hourly, b) == 1
            && w'.ever == [s, late] && Group(w'.ever, b) == [s, late] && CountIn(w'.hourly, b) == 1
  {
    var before := [Insert(s)] + TaskOps(first, cutoff, false, false);
    RolledAndPurged(s, first, cutoff);
    ThreeOps(EMPTY, before, Insert(late), Roll(second));
    LeftAlone(ApplyAll(EMPTY, before), late, second);
    GroupOfTwo(s, late);
  }

  // ---------- Runs whose cutoffs lie on the hour ----------

  /** The latest purge cutoff. */
  function Horizon(ops: seq<Op>): Option<int> {
    if ops == [] then None
    else match ops[|ops| - 1]
      case Cut(cutoff) => Some(cutoff)
      case _ => Horizon(ops[..|ops| - 1])
  }

  /** Cutoffs lie on the hour and do not go back; a purge cuts at an hour that the last rollup had
    * closed, and only samples it could have seen; no sample arrives for a purged hour. */
  ghost predicate OnTheHour(w: World, horizon: Option<int>, op: Op) {
    match op
    case Insert(s) => horizon.Some? ==> horizon.value <= s.timestamp
    case Roll(_) => true
    case Cut(cutoff) =>
      && cutoff % HOUR == 0 && w.rolled.Some? && cutoff <= w.rolled.value
      && (horizon.Some? ==> horizon.value <= cutoff)
      && w.seen <= |w.ever|
      && forall i :: w.seen <= i < |w.ever| ==> w.ever[i].timestamp >= cutoff
  }

  ghost predicate AllOnTheHour(ops: seq<Op>) {
    ops != [] ==>
      var n := |ops| - 1;
      AllOnTheHour(ops[..n]) && OnTheHour(ApplyAll(EMPTY, ops[..n]), Horizon(ops[..n]), ops[n])
  }

  /** What is not older than the horizon has not been purged, all else has. */
  ghost predicate Untouched(w: World, horizon: Option<int>) {
    && (horizon.Some? ==> horizon.value % HOUR == 0)
    && forall b: Bucket :: if horizon.Some? && b.start < horizon.value then Group(w.raw, b) == [] else Whole(w, b)
  }

  lemma OnTheHourHarmless(w: World, horizon: Option<int>, op: Op, b: Bucket)
    requires Untouched(w, horizon) && OnTheHour(w, horizon, op)
    ensures !Harms(w, op, b)
  {
    if op.Cut? {
      var cutoff := op.cutoff;
      if i :| 0 <= i < |w.raw| && BucketOf(w.raw[i]) == b && w.raw[i].timestamp < cutoff {
        HourBelow(w.raw[i].timestamp, cutoff);
        var tail := w.ever[w.seen..];
        assert w.ever == w.ever[..w.seen] + tail;
        GroupConcat(w.ever[..w.seen], tail, b);
        GroupOfLater(tail, b, cutoff);
      }
    }
  }

  lemma OnTheHourUntouched(w: World, horizon: Option<int>, op: Op)
    requires Untouched(w, horizon) && OnTheHour(w, horizon, op)
    ensures Untouched(Apply(w, op), if op.Cut? then Some(op.cutoff) else horizon)
  {
    var w' := Apply(w, op);
    var horizon' := if op.Cut? then Some(op.cutoff) else horizon;
    forall b: Bucket
      ensures if horizon'.Some? && b.start < horizon'.value then Group(w'.raw, b) == [] else Whole(w', b)
    {
      match op
      case Insert(s) =>
        GroupSnoc(w.raw, s, b);
        GroupSnoc(w.ever, s, b);
        if horizon.Some? {
          HourBelow(s.timestamp, horizon.value);
        }
      case Roll(now) =>
      case Cut(cutoff) => AlignedPurge(w.raw, cutoff, b);
    }
  }

  lemma {:induction false} AlignedRun(ops: seq<Op>, b: Bucket)
    requires AllOnTheHour(ops)
    ensures !Harmed(ops, b) && Untouched(ApplyAll(EMPTY, ops), Horizon(ops))
  {
    if ops == [] {
    } else {
      var n := |ops| - 1;
      AlignedRun(ops[..n], b);
      HarmedSnoc(ops, b);
      OnTheHourHarmless(ApplyAll(EMPTY, ops[..n]), Horizon(ops[..n]), ops[n], b);
      OnTheHourUntouched(ApplyAll(EMPTY, ops[..n]), Horizon(ops[..n]), ops[n]);
    }
  }

  /** In particular: with cutoffs on the hour, purges only of what the last rollup closed and saw, and no
    * sample for a purged hour, every run agrees with its full history. */
  lemma AlignedRunsAgree(ops: seq<Op>, b: Bucket)
    requires ClockForward(ops) && AllOnTheHour(ops)
    ensures Agrees(ApplyAll(EMPTY, ops), b)
  {
    AlignedRun(ops, b);
    RollupAgreesWithHistory(ops, b);
  }

  /** Samples no older than an hour start cannot be in an earlier bucket. */
  lemma {:induction false} GroupOfLater(samples: seq<Sample>, b: Bucket, cutoff: int)
    requires cutoff % HOUR == 0 && b.start < cutoff
    requires forall i :: 0 <= i < |samples| ==> samples[i].timestamp >= cutoff
    ensures Group(samples, b) == []
  {
    if samples == [] {
    } else {
      GroupOfLater(samples[..|samples| - 1], b, cutoff);
      HourBelow(samples[|samples| - 1].timestamp, cutoff);
    }
  }

  /** A cutoff on the hour takes a bucket whole or leaves it whole. */
  lemma AlignedPurge(raw: seq<Sample>, cutoff: int, b: Bucket)
    requires cutoff % HOUR == 0
    ensures Group(Purge(raw, cutoff), b) == if b.start < cutoff then [] else Group(raw, b)
  {
    GroupOfPurged(raw, cutoff, b);
    GroupMembers(raw, b);
    AlignedFrom(Group(raw, b), cutoff, b);
  }

  lemma {:induction false} AlignedFrom(group: seq<Sample>, cutoff: int, b: Bucket)
    requires cutoff % HOUR == 0 && forall s :: s in group ==> BucketOf(s) == b
    ensures From(group, cutoff) == if b.start < cutoff then [] else group
  {
    if group == [] {
    } else {
      var n := |group| - 1;
      AlignedFrom(group[..n], cutoff, b);
      assert group[n] in group;
      HourBelow(group[n].timestamp, cutoff);
      assert group == group[..n] + [group[n]];
    }
  }

  // ---------- Exactly which purges are harmless ----------

  /** The cutoff falls between two samples of the bucket. */
  ghost predicate Splits(raw: seq<Sample>, b: Bucket, cutoff: int) {
    exists i, j :: Straddles(raw, b, cutoff, i, j)
  }

  ghost predicate Straddles(raw: seq<Sample>, b: Bucket, cutoff: int, i: int, j: int) {
    && 0 <= i < |raw| && 0 <= j < |raw|
    && BucketOf(raw[i]) == BucketOf(raw[j]) == b
    && raw[i].timestamp < cutoff <= raw[j].timestamp
  }

  lemma {:induction false} FromParts(group: seq<Sample>, cutoff: int)
    ensures |From(group, cutoff)| <= |group|
    ensures |From(group, cutoff)| == |group| ==> From(group, cutoff) == group
    ensures |From(group, cutoff)| < |group| <==> exists i :: 0 <= i < |group| && group[i].timestamp < cutoff
    ensures From(group, cutoff) != [] <==> exists i :: 0 <= i < |group| && group[i].timestamp >= cutoff
  {
    if group == [] {
    } else {
      var n := |group| - 1;
      FromParts(group[..n], cutoff);
      assert group == group[..n] + [group[n]];
      assert group[n].timestamp >= cutoff || group[n].timestamp < cutoff;
    }
  }

  lemma SplitsGroup(raw: seq<Sample>, b: Bucket, cutoff: int)
    ensures var group := Group(raw, b);
            Splits(raw, b, cutoff) <==>
              && (exists i :: 0 <= i < |group| && group[i].timestamp < cutoff)
              && (exists j :: 0 <= j < |group| && group[j].timestamp >= cutoff)
  {
    GroupMembers(raw, b);
    var group := Group(raw, b);
    if i, j :| 0 <= i < |group| && 0 <= j < |group| && group[i].timestamp < cutoff <= group[j].timestamp {
      assert group[i] in group && group[j] in group;
      assert group[i] in raw && group[j] in raw;
      var k :| 0 <= k < |raw| && raw[k] == group[i];
      var l :| 0 <= l < |raw| && raw[l] == group[j];
      assert Straddles(raw, b, cutoff, k, l);
    }
    if i, j :| Straddles(raw, b, cutoff, i, j) {
      assert raw[i] in group && raw[j] in group;
    }
  }

  /** A rolled-up row survives a purge and the next rollup exactly when the cutoff does not fall
    * between two samples of its bucket. */
  lemma PurgeHarmlessIff(raw: seq<Sample>, hourly: Hourly, b: Bucket, cutoff: int, now: int)
    requires Group(raw, b) != [] && b in hourly && hourly[b] == Aggregate(Group(raw, b)) && b.start < HourOf(now)
    ensures var hourly' := RollupHourly(Purge(raw, cutoff), hourly, now);
            b in hourly' && (hourly'[b] == Aggregate(Group(raw, b)) <==> !Splits(raw, b, cutoff))
  {
    RollupBucket(Purge(raw, cutoff), hourly, now, b);
    GroupOfPurged(raw, cutoff, b);
    SplitsGroup(raw, b, cutoff);
    FromParts(Group(raw, b), cutoff);
    assert Aggregate(From(Group(raw, b), cutoff)).count == |From(Group(raw, b), cutoff)|;
  }

  /** A cutoff is harmless for every table exactly when it lies on the hour. */
  lemma AlignmentIsExact(cutoff: int, agent: string)
    ensures cutoff % HOUR == 0 <==> forall raw, b :: !Splits(raw, b, cutoff)
  {
    if cutoff % HOUR == 0 {
      forall raw: seq<Sample>, b ensures !Splits(raw, b, cutoff) {
        if i, j :| Straddles(raw, b, cutoff, i, j) {
          HourBelow(raw[i].timestamp, cutoff);
          HourBelow(raw[j].timestamp, cutoff);
        }
      }
    } else {
      var raw := TwoSamples(agent, cutoff);
      HourBelow(cutoff, 0);
      HourBelow(HourOf(cutoff), 0);
      var b := BucketOf(raw[1]);
      assert Straddles(raw, b, cutoff, 0, 1);
      assert Splits(raw, b, cutoff);
    }
  }

  function Bare(agent: string, timestamp: int): Sample {
    Sample(agent, timestamp, None, None, [], [])
  }

  /** One sample at the start of the cutoff's hour and one at the cutoff. */
  function TwoSamples(agent: string, cutoff: int): seq<Sample> {
    [Bare(agent, HourOf(cutoff)), Bare(agent, cutoff)]
  }

  function CountIn(hourly: Hourly, b: Bucket): nat {
    if b in hourly then hourly[b].count else 0
  }

  lemma TwoSamplesFacts(agent: string, cutoff: int)
    requires cutoff % HOUR != 0
    ensures var raw := TwoSamples(agent, cutoff);
            && Group(raw, Bucket(agent, HourOf(cutoff))) == raw
            && Purge(raw, cutoff) == raw[1..]
            && Group(raw[1..], Bucket(agent, HourOf(cutoff))) == raw[1..]
  {
    var raw := TwoSamples(agent, cutoff);
    var b := Bucket(agent, HourOf(cutoff));
    HourBelow(cutoff, 0);
    HourBelow(HourOf(cutoff), 0);
    assert raw == ([] + [raw[0]]) + [raw[1]] && raw[1..] == [] + [raw[1]];
    GroupSnoc([], raw[0], b);
    GroupSnoc([], raw[1], b);
    GroupSnoc([] + [raw[0]], raw[1], b);
    FromSnoc([], raw[0], cutoff);
    FromSnoc([] + [raw[0]], raw[1], cutoff);
  }

  lemma UnalignedCutLoses(agent: string, cutoff: int, first: int, second: int)
    requires cutoff % HOUR != 0 && HourOf(cutoff) < HourOf(first) <= HourOf(second)
    ensures var raw := TwoSamples(agent, cutoff);
            var hourly := RollupHourly(raw, map[], first);
            && CountIn(hourly, Bucket(agent, HourOf(cutoff))) == 2
            && CountIn(RollupHourly(Purge(raw, cutoff), hourly, second), Bucket(agent, HourOf(cutoff))) == 1
  {
    var raw := TwoSamples(agent, cutoff);
    var b := Bucket(agent, HourOf(cutoff));
    TwoSamplesFacts(agent, cutoff);
    RollupBucket(raw, map[], first, b);
    RollupBucket(Purge(raw, cutoff), RollupHourly(raw, map[], first), second, b);
  }

  /** The purge as the worker makes it, `first` minus whole days, is on the hour only when `first`
    * is; at any other time two retention runs can leave a row that counts one of two samples. */
  lemma UnalignedRunsLoseSamples(agent: string, days: int, first: int, second: int)
    requires days > 0 && first % HOUR != 0 && HourOf(first) <= HourOf(second)
    ensures var cutoff := first - days * DAY;
            var raw := TwoSamples(agent, cutoff);
            var hourly := RollupHourly(raw, map[], first);
            && CountIn(hourly, Bucket(agent, HourOf(cutoff))) == 2
            && CountIn(RollupHourly(Purge(raw, cutoff), hourly, second), Bucket(agent, HourOf(cutoff))) == 1
  {
    CutoffOffset(first, days);
    UnalignedCutLoses(agent, first - days * DAY, first, second);
  }

  /** Whole days before an instant lie at the same distance from the hour. */
  lemma CutoffOffset(now: int, days: int)
    requires days > 0
    ensures (now - days * DAY) % HOUR == now % HOUR && HourOf(now - days * DAY) < HourOf(now)
  {
    assert days * DAY == (days * 24) * HOUR;
    ModMinus(now, days * 24);
  }

  lemma ModMinus(x: int, k: nat)
    ensures (x - k * HOUR) % HOUR == x % HOUR
  {
    if k == 0 {
    } else {
      ModMinus(x, k - 1);
      assert x - k * HOUR == (x - (k - 1) * HOUR) - HOUR;
    }
  }
}
