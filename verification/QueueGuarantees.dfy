/** What the notification queue promises in every reachable state and over every run. */
module QueueGuarantees {
  import opened Options
  import opened NotificationQueue
  import opened QueueInvariant

  // ---------- Every live delivery is in exactly one place ----------

  datatype Place = OnChannel(q: nat) | InHands(i: nat)

  ghost predicate IsAt(s: System, id: Id, p: Place) {
    match p
    case OnChannel(q) => q < |s.sh.jobs| && s.sh.jobs[q].id == id
    case InHands(i) => i < |s.procs| && Holds(s.procs[i]) == Some(id)
  }

  lemma {:induction false} BagFinds<T>(xs: seq<T>, f: T -> multiset<Id>, id: Id) returns (i: nat)
    requires id in Bag(xs, f)
    ensures i < |xs| && id in f(xs[i])
  {
    var n := |xs| - 1;
    if id in f(xs[n]) {
      i := n;
    } else {
      i := BagFinds(xs[..n], f, id);
    }
  }

  lemma PlaceCounts(s: System, id: Id, p: Place)
    requires IsAt(s, id, p)
    ensures id in Tokens(s)
    ensures p.OnChannel? ==> id in Bag(s.sh.jobs, Queued)
    ensures p.InHands? ==> id in Bag(s.procs, Held)
  {
    match p
    case OnChannel(q) => BagHolds(s.sh.jobs, Queued, q);
    case InHands(i) => BagHolds(s.procs, Held, i);
  }

  lemma TwoPlacesCountTwice(s: System, id: Id, p: Place, p': Place)
    requires IsAt(s, id, p) && IsAt(s, id, p') && p != p'
    ensures Tokens(s)[id] >= 2
  {
    match (p, p')
    case (OnChannel(q), OnChannel(q')) =>
      BagHoldsTwo(s.sh.jobs, Queued, if q < q' then q else q', if q < q' then q' else q);
    case (InHands(i), InHands(i')) =>
      BagHoldsTwo(s.procs, Held, if i < i' then i else i', if i < i' then i' else i);
    case _ =>
      PlaceCounts(s, id, p);
      PlaceCounts(s, id, p');
  }

  /** A delivery is live exactly when it is on the channel or in one goroutine's hands, and then
    * it is there once: none is lost and none is duplicated, whatever the interleaving. */
  lemma ExactlyOnePlace(c: Config, steps: seq<Step>, id: Id)
    requires c.Valid() && Execute(c, Start(c), steps).Some?
    ensures var s := Execute(c, Start(c), steps).value;
            && (id in Live(s.sh.past) <==> exists p :: IsAt(s, id, p))
            && (forall p, p' :: IsAt(s, id, p) && IsAt(s, id, p') ==> p == p')
  {
    var s := Execute(c, Start(c), steps).value;
    Reachable(c, steps);
    assert Tokens(s)[id] == multiset(Live(s.sh.past))[id] <= 1;
    forall p, p' | IsAt(s, id, p) && IsAt(s, id, p') ensures p == p' {
      if p != p' {
        TwoPlacesCountTwice(s, id, p, p');
      }
    }
    if id in Live(s.sh.past) {
      var _ := FindPlace(s, id);
    }
    if p :| IsAt(s, id, p) {
      PlaceCounts(s, id, p);
    }
  }

  lemma FindPlace(s: System, id: Id) returns (p: Place)
    requires Conserved(s) && id in Live(s.sh.past)
    ensures IsAt(s, id, p)
  {
    assert id in Tokens(s);
    if id in Bag(s.sh.jobs, Queued) {
      var q := BagFinds(s.sh.jobs, Queued, id);
      p := OnChannel(q);
    } else {
      var i := BagFinds(s.procs, Held, id);
      p := InHands(i);
    }
  }

  // ---------- Rows ----------

  /** A row is pending exactly while its delivery is live, or for ever when its last write failed. */
  lemma PendingMeansLive(c: Config, steps: seq<Step>)
    requires c.Valid() && Execute(c, Start(c), steps).Some?
    ensures var s := Execute(c, Start(c), steps).value;
            PendingRows(s.sh.rows) == (Live(s.sh.past) + s.sh.past.lost) * s.sh.rows.Keys
  {
    var s := Execute(c, Start(c), steps).value;
    Reachable(c, steps);
    forall id ensures id in PendingRows(s.sh.rows) <==> id in (Live(s.sh.past) + s.sh.past.lost) * s.sh.rows.Keys {
      if id in s.sh.rows {
        assert RowOk(c, s.sh.past, id, s.sh.rows[id]);
      }
    }
  }

  /** A row keeps its channel, and once delivered or failed everything. */
  ghost predicate Continues(row: Row, row': Row) {
    row'.channel == row.channel && (row.status != Pending ==> row' == row)
  }

  /** Records are never forgotten and a row that is gone does not come back. */
  lemma StepGrows(c: Config, s: System, step: Step, id: Id)
    requires Inv(c, s) && Do(c, s, step).Some? && id in s.sh.past.sends
    ensures var s' := Do(c, s, step).value;
            && id in s'.sh.past.sends
            && (id in s'.sh.rows ==> id in s.sh.rows && Continues(s.sh.rows[id], s'.sh.rows[id]))
  {
    if step.Proc? {
      var g := s.procs[step.i];
      AdvanceKeys(c, s.sh, g, step.ch);
      if id in Touched(g, step.ch) {
        TouchedElsewhere(c, s, step.i, step.ch, id);
        TouchedContinues(c, s.sh, g, step.ch, id);
      } else {
        AdvanceFrame(c, s.sh, g, step.ch, id);
      }
    }
  }

  /** An unfinished delivery's row is pending, and an action on it keeps its channel. */
  lemma TouchedContinues(c: Config, sh: Shared, g: Goroutine, ch: Choice, id: Id)
    requires Advance(c, sh, g, ch).Moved? && id in sh.past.sends && id in Live(sh.past)
    requires id in sh.rows ==> RowOk(c, sh.past, id, sh.rows[id])
    requires sh.past.lost <= sh.past.ended.Keys
    ensures var rows' := Advance(c, sh, g, ch).sh.rows;
            id in rows' ==> id in sh.rows && Continues(sh.rows[id], rows'[id])
  {}

  /** Over any continuation of a run a row keeps its channel, once delivered or failed it never
    * changes again, and once removed it does not come back. */
  lemma {:induction false} FinalRowsAreFinal(c: Config, s: System, steps: seq<Step>, id: Id)
    requires Inv(c, s) && Execute(c, s, steps).Some? && id in s.sh.past.sends
    ensures var s' := Execute(c, s, steps).value;
            && Inv(c, s') && id in s'.sh.past.sends
            && (id in s'.sh.rows ==> id in s.sh.rows && Continues(s.sh.rows[id], s'.sh.rows[id]))
  {
    if steps == [] {
    } else {
      var n := |steps| - 1;
      FinalRowsAreFinal(c, s, steps[..n], id);
      var mid := Execute(c, s, steps[..n]).value;
      StepKeepsInv(c, mid, steps[n]);
      StepGrows(c, mid, steps[n], id);
    }
  }

  /** The attempts recorded in a final row are the sends made, except on the branch that found the
    * channel full on a retry, where they are one more; its status code and error are those of the
    * latest send, or "queue full" when there was none. */
  lemma RecordedAttempts(c: Config, steps: seq<Step>, id: Id)
    requires c.Valid() && Execute(c, Start(c), steps).Some?
    requires var s := Execute(c, Start(c), steps).value;
             id in s.sh.rows && s.sh.rows[id].status != Pending
    ensures var s := Execute(c, Start(c), steps).value;
            var row := s.sh.rows[id];
            && id in s.sh.past.ended && id in s.sh.past.sends
            && var cause, sends := s.sh.past.ended[id], s.sh.past.sends[id];
            && (row.attempts == sends + 1 <==> cause == RequeueFull)
            && (row.attempts == sends <==> cause != RequeueFull)
            && (row.status == Delivered <==> cause == Sent)
            && (row.sentAt.Some? <==> cause == Sent)
            && (cause == Exhausted ==> sends == c.maxRetries)
            && (cause == FirstFull <==> sends == 0)
            && row.attempts <= c.maxRetries
            && (cause != FirstFull ==> id in s.sh.past.last && s.sh.past.last[id] == Reply(row.response, row.error))
            && (cause == FirstFull ==> row.response == 0 && row.error == "queue full")
            && (cause == Sent ==> row.error == "")
  {
    Reachable(c, steps);
    var s := Execute(c, Start(c), steps).value;
    assert RowOk(c, s.sh.past, id, s.sh.rows[id]);
  }

  /** Every job on the channel is about to be sent for the first time or for a permitted retry. */
  lemma JobsOnChannel(c: Config, steps: seq<Step>, q: nat)
    requires c.Valid() && Execute(c, Start(c), steps).Some?
    requires q < |Execute(c, Start(c), steps).value.sh.jobs|
    ensures var s := Execute(c, Start(c), steps).value;
            var job := s.sh.jobs[q];
            && |s.sh.jobs| <= c.capacity
            && 1 <= job.attempt <= c.maxRetries
            && job.id in s.sh.past.sends && job.attempt == s.sh.past.sends[job.id] + 1
  {
    Reachable(c, steps);
    assert JobOk(c, Execute(c, Start(c), steps).value.sh.past, Execute(c, Start(c), steps).value.sh.jobs[q]);
  }

  // ---------- Bounds on the work ----------

  lemma {:induction false} SquaresClosedForm(n: nat)
    ensures 6 * SumOfSquares(n) == n * (n + 1) * (2 * n + 1)
  {
    if n == 0 {
    } else {
      SquaresClosedForm(n - 1);
      CubicStep(n);
    }
  }

  lemma CubicStep(n: nat)
    ensures (n - 1) * n * (2 * n - 1) + 6 * (n * n) == n * (n + 1) * (2 * n + 1)
  {
    var square := n * n;
    var cube := square * n;
    assert (n - 1) * n == square - n;
    assert (square - n) * (2 * n - 1) == 2 * cube - 3 * square + n;
    assert n * (n + 1) == square + n;
    assert (square + n) * (2 * n + 1) == 2 * cube + 3 * square + n;
  }

  lemma HolderSpent(c: Config, past: Past, g: Goroutine, id: Id)
    requires c.Valid() && HolderOk(c, past, g) && Holds(g) == Some(id)
    ensures Spent(c, past, id)
  {
    match g
    case Sending(job) => SquaresGrow(job.attempt - 1, c.maxRetries - 1);
    case Sleeping(job, _, _) => SquaresGrow(job.attempt - 1, c.maxRetries - 1);
    case Requeueing(job, _, _) => SquaresGrow(job.attempt - 1, c.maxRetries - 1);
    case Offering(job, _) => SquaresGrow(job.attempt - 1, c.maxRetries - 1);
    case _ =>
  }

  lemma EveryDeliverySpent(c: Config, s: System, id: Id)
    requires Inv(c, s) && id in s.sh.past.sends
    ensures Spent(c, s.sh.past, id)
  {
    if id !in s.sh.past.ended {
      var p := FindPlace(s, id);
      match p
      case OnChannel(q) =>
        assert JobOk(c, s.sh.past, s.sh.jobs[q]);
        SquaresGrow(s.sh.jobs[q].attempt - 1, c.maxRetries - 1);
      case InHands(i) =>
        HolderSpent(c, s.sh.past, s.procs[i], id);
    }
  }

  /** One delivery costs at most `m` sends and (m-1)m(2m-1)/6 seconds of backoff, and all of them
    * together at most `m` sends each. */
  lemma WorkBounds(c: Config, steps: seq<Step>, id: Id)
    requires c.Valid() && Execute(c, Start(c), steps).Some?
    ensures var past := Execute(c, Start(c), steps).value.sh.past;
            var m := c.maxRetries;
            && past.total <= m * |past.sends|
            && (id in past.sends ==>
                  id in past.slept && past.sends[id] <= m && 6 * past.slept[id] <= (m - 1) * m * (2 * m - 1))
  {
    Reachable(c, steps);
    var s := Execute(c, Start(c), steps).value;
    assert Solvent(c, s);
    if id in s.sh.past.sends {
      EveryDeliverySpent(c, s, id);
      BudgetClosedForm(c);
    }
  }

  lemma BudgetClosedForm(c: Config)
    requires c.Valid()
    ensures 6 * BackoffBudget(c) == (c.maxRetries - 1) * c.maxRetries * (2 * c.maxRetries - 1)
  {
    var m := c.maxRetries;
    SquaresClosedForm(m - 1);
    assert 2 * (m - 1) + 1 == 2 * m - 1;
  }

  /** Enqueue calls that have not returned. */
  function InFlight(procs: seq<Goroutine>): nat {
    if procs == [] then 0
    else InFlight(procs[..|procs| - 1]) + if IsWorker(procs[|procs| - 1]) || procs[|procs| - 1].Returned? then 0 else 1
  }

  function Pool(procs: seq<Goroutine>): nat {
    if procs == [] then 0 else Pool(procs[..|procs| - 1]) + if IsWorker(procs[|procs| - 1]) then 1 else 0
  }

  lemma {:induction false} HandsBounded(procs: seq<Goroutine>)
    ensures |Bag(procs, Held)| <= Pool(procs) + InFlight(procs)
  {
    if procs == [] {
    } else {
      HandsBounded(procs[..|procs| - 1]);
    }
  }

  lemma {:induction false} PoolBounded(procs: seq<Goroutine>, workers: nat)
    requires forall i :: 0 <= i < |procs| ==> (IsWorker(procs[i]) <==> i < workers)
    ensures Pool(procs) <= workers && Pool(procs) <= |procs|
  {
    if procs == [] {
    } else {
      var n := |procs| - 1;
      assert forall i :: 0 <= i < n ==> procs[..n][i] == procs[i];
      PoolBounded(procs[..n], workers);
    }
  }

  lemma {:induction false} ChannelSize(jobs: seq<Job>)
    ensures |Bag(jobs, Queued)| == |jobs|
  {
    if jobs == [] {
    } else {
      ChannelSize(jobs[..|jobs| - 1]);
    }
  }

  lemma SubsetSize(a: set<Id>, b: set<Id>)
    requires a <= b
    ensures |a| <= |b|
  {
    assert b == a + (b - a);
  }

  /** Rows still pending are bounded by the queue size, the pool and the Enqueue calls in flight,
    * apart from those whose last write failed. */
  lemma PendingBounded(c: Config, steps: seq<Step>)
    requires c.Valid() && Execute(c, Start(c), steps).Some?
    ensures var s := Execute(c, Start(c), steps).value;
            |PendingRows(s.sh.rows)| <= c.capacity + c.workers + InFlight(s.procs) + |s.sh.past.lost|
  {
    Reachable(c, steps);
    PendingMeansLive(c, steps);
    var s := Execute(c, Start(c), steps).value;
    var live := Live(s.sh.past);
    assert |multiset(live)| == |live|;
    ChannelSize(s.sh.jobs);
    HandsBounded(s.procs);
    PoolBounded(s.procs, c.workers);
    SubsetSize(PendingRows(s.sh.rows), live + s.sh.past.lost);
    assert |live + s.sh.past.lost| <= |live| + |s.sh.past.lost|;
  }

  // ---------- Termination ----------

  /** Work left in an Enqueue call with `n` channels to go. */
  function ListWeight(c: Config, n: nat): nat
    requires c.Valid()
  {
    n * (5 * c.maxRetries + 8) + 1
  }

  /** Work left in one goroutine: at most five actions for each attempt still permitted. */
  function Weight(c: Config): Goroutine -> nat
    requires c.Valid()
  {
    (g: Goroutine) =>
      match g
      case Idle => 0
      case Sending(job) => 5 * CreditOf(c, job.attempt) + 4
      case Sleeping(job, _, _) => 5 * CreditOf(c, job.attempt) + 3
      case Requeueing(job, _, _) => 5 * CreditOf(c, job.attempt) + 7
      case Recording(_) => 1
      case Listing(todo) => ListWeight(c, |todo|)
      case Offering(job, todo) => 5 * CreditOf(c, job.attempt) + 7 + ListWeight(c, |todo|)
      case Refusing(_, todo) => ListWeight(c, |todo|) + 1
      case Returned => 0
  }

  function JobWeight(c: Config): Job -> nat {
    (job: Job) => 5 * CreditOf(c, job.attempt) + 5
  }

  function Measure(c: Config, s: System): nat
    requires c.Valid()
  {
    Sum(s.sh.jobs, JobWeight(c)) + Sum(s.procs, Weight(c))
  }

  lemma ListWeightDrops(c: Config, n: nat)
    requires c.Valid()
    ensures ListWeight(c, n + 1) == ListWeight(c, n) + 5 * c.maxRetries + 8
  {
    assert (n + 1) * (5 * c.maxRetries + 8) == n * (5 * c.maxRetries + 8) + (5 * c.maxRetries + 8);
  }

  lemma WorkerWeight(c: Config, sh: Shared, g: Goroutine, ch: Choice)
    requires c.Valid() && HolderOk(c, sh.past, g) && Advance(c, sh, g, ch).Moved? && IsWorker(g)
    ensures var m := Advance(c, sh, g, ch);
            Sum(m.sh.jobs, JobWeight(c)) + Weight(c)(m.g) < Sum(sh.jobs, JobWeight(c)) + Weight(c)(g)
  {
    match g
    case Idle => SumTail(sh.jobs, JobWeight(c));
    case Requeueing(job, _, _) => SumAppend(sh.jobs, JobWeight(c), job);
    case _ =>
  }

  lemma CallerWeight(c: Config, sh: Shared, g: Goroutine, ch: Choice)
    requires c.Valid() && HolderOk(c, sh.past, g) && Advance(c, sh, g, ch).Moved? && !IsWorker(g)
    ensures var m := Advance(c, sh, g, ch);
            Sum(m.sh.jobs, JobWeight(c)) + Weight(c)(m.g) < Sum(sh.jobs, JobWeight(c)) + Weight(c)(g)
  {
    if g.Offering? {
      SumAppend(sh.jobs, JobWeight(c), g.job);
    } else if g.Listing? && g.todo != [] {
      ListWeightDrops(c, |g.todo| - 1);
    }
  }

  /** Every action of every goroutine, worker or caller, leaves less work than it found. */
  lemma AdvanceWeight(c: Config, sh: Shared, g: Goroutine, ch: Choice)
    requires c.Valid() && HolderOk(c, sh.past, g) && Advance(c, sh, g, ch).Moved?
    ensures var m := Advance(c, sh, g, ch);
            Sum(m.sh.jobs, JobWeight(c)) + Weight(c)(m.g) < Sum(sh.jobs, JobWeight(c)) + Weight(c)(g)
  {
    if IsWorker(g) {
      WorkerWeight(c, sh, g, ch);
    } else {
      CallerWeight(c, sh, g, ch);
    }
  }

  predicate NoNewCalls(steps: seq<Step>) {
    forall k :: 0 <= k < |steps| ==> !steps[k].Call?
  }

  function Actions(steps: seq<Step>): nat {
    if steps == [] then 0 else Actions(steps[..|steps| - 1]) + if steps[|steps| - 1].Proc? then 1 else 0
  }

  /** Once no Enqueue call begins any more, the goroutines can act only a bounded number of times. */
  lemma {:induction false} WorkTerminates(c: Config, s: System, steps: seq<Step>)
    requires Inv(c, s) && Execute(c, s, steps).Some? && NoNewCalls(steps)
    ensures var s' := Execute(c, s, steps).value;
            Inv(c, s') && Actions(steps) + Measure(c, s') <= Measure(c, s)
  {
    if steps == [] {
    } else {
      var n := |steps| - 1;
      WorkTerminates(c, s, steps[..n]);
      var mid := Execute(c, s, steps[..n]).value;
      StepKeepsInv(c, mid, steps[n]);
      if steps[n].Proc? {
        var i, ch := steps[n].i, steps[n].ch;
        AdvanceWeight(c, mid.sh, mid.procs[i], ch);
        SumUpdate(mid.procs, Weight(c), i, Advance(c, mid.sh, mid.procs[i], ch).g);
      }
    }
  }

  /** While a delivery is live or a call is in progress, some goroutine can act. */
  lemma SomeoneCanAct(c: Config, s: System, j: nat) returns (i: nat, ch: Choice)
    requires Inv(c, s)
    requires s.sh.jobs != [] || (j < |s.procs| && !s.procs[j].Idle? && !s.procs[j].Returned?)
    ensures i < |s.procs| && Advance(c, s.sh, s.procs[i], ch).Moved?
  {
    if j < |s.procs| && !s.procs[j].Idle? && !s.procs[j].Returned? {
      i := j;
      ch := AnAnswer(c, s.sh, s.procs[i]);
    } else {
      i := 0;
      ch := if s.procs[0].Idle? then Go else AnAnswer(c, s.sh, s.procs[0]);
    }
  }

  function AnAnswer(c: Config, sh: Shared, g: Goroutine): (ch: Choice)
    requires !g.Idle? && !g.Returned?
    ensures (Holds(g).Some? ==> Holds(g).value in sh.past.sends && Holds(g).value in sh.past.slept)
            ==> Advance(c, sh, g, ch).Moved?
  {
    match g
    case Sending(_) => SendOk(200)
    case Recording(_) => UpdateError
    case Refusing(_, _) => UpdateError
    case Listing(todo) => if todo != [] && todo[0].enabled then CreateError else Go
    case _ => Go
  }

  ghost predicate Quiescent(c: Config, s: System) {
    forall i, ch :: 0 <= i < |s.procs| ==> !Advance(c, s.sh, s.procs[i], ch).Moved?
  }

  /** When nothing can act any more every delivery has ended, and a row is still pending only if
    * its last write failed. */
  lemma QuiescentMeansDone(c: Config, steps: seq<Step>)
    requires c.Valid() && Execute(c, Start(c), steps).Some?
    requires Quiescent(c, Execute(c, Start(c), steps).value)
    ensures var s := Execute(c, Start(c), steps).value;
            && s.sh.jobs == [] && Live(s.sh.past) == {}
            && PendingRows(s.sh.rows) == s.sh.past.lost * s.sh.rows.Keys
  {
    Reachable(c, steps);
    PendingMeansLive(c, steps);
    var s := Execute(c, Start(c), steps).value;
    forall id ensures id !in Live(s.sh.past) {
      if id in Live(s.sh.past) {
        var p := FindPlace(s, id);
        var i, ch := SomeoneCanAct(c, s, if p.InHands? then p.i else 0);
      }
    }
    if s.sh.jobs != [] {
      var i, ch := SomeoneCanAct(c, s, 0);
    }
  }
}
