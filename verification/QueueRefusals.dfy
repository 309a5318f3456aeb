/** What becomes of a delivery whose retry finds the channel full, and of one whose last row write is
  * refused: where the recorded rows fall short of what was done. */
module QueueRefusals {
  import opened Options
  import opened NotificationQueue
  import opened QueueInvariant
  import opened QueueGuarantees

  // ---------- A refused last write ----------

  lemma StepKeepsLost(c: Config, s: System, step: Step)
    requires Do(c, s, step).Some?
    ensures s.sh.past.lost <= Do(c, s, step).value.sh.past.lost
  {
    if step.Proc? {
      AdvanceKeys(c, s.sh, s.procs[step.i], step.ch);
    }
  }

  lemma {:induction false} LostGrows(c: Config, s: System, steps: seq<Step>)
    requires Execute(c, s, steps).Some?
    ensures s.sh.past.lost <= Execute(c, s, steps).value.sh.past.lost
  {
    if steps == [] {
    } else {
      var n := |steps| - 1;
      LostGrows(c, s, steps[..n]);
      StepKeepsLost(c, Execute(c, s, steps[..n]).value, steps[n]);
    }
  }

  /** Once the last write of a delivery was refused its row never changes again: over every
    * continuation of the run it stays pending, or is removed. */
  lemma LostStaysPending(c: Config, s: System, steps: seq<Step>, id: Id)
    requires Inv(c, s) && Execute(c, s, steps).Some? && id in s.sh.past.lost
    ensures var s' := Execute(c, s, steps).value;
            id in s'.sh.rows ==>
              && id in s.sh.rows && s'.sh.rows[id] == s.sh.rows[id]
              && s'.sh.rows[id].status == Pending
  {
    FinalRowsAreFinal(c, s, steps, id);
    LostGrows(c, s, steps);
    var s' := Execute(c, s, steps).value;
    if id in s'.sh.rows {
      assert RowOk(c, s'.sh.past, id, s'.sh.rows[id]) && RowOk(c, s.sh.past, id, s.sh.rows[id]);
    }
  }

  /** The last write of the delivery is answered with an error. */
  ghost predicate LosesWrite(s: System, step: Step, id: Id) {
    step.Proc? && step.ch == UpdateError && step.i < |s.procs| && Gone(s.procs[step.i]) == Some(id)
  }

  /** ... at step `n` of the run. */
  ghost predicate LostAt(c: Config, steps: seq<Step>, n: nat, id: Id)
    requires c.Valid()
  {
    && n < |steps| && Execute(c, Start(c), steps[..n]).Some?
    && LosesWrite(Execute(c, Start(c), steps[..n]).value, steps[n], id)
  }

  lemma AdvanceLost(c: Config, sh: Shared, g: Goroutine, ch: Choice)
    requires Advance(c, sh, g, ch).Moved?
    ensures Advance(c, sh, g, ch).sh.past.lost
            == if ch == UpdateError && Gone(g).Some? then sh.past.lost + {Gone(g).value} else sh.past.lost
  {}

  lemma StepLost(c: Config, s: System, step: Step, id: Id)
    requires Do(c, s, step).Some?
    ensures id in Do(c, s, step).value.sh.past.lost <==> id in s.sh.past.lost || LosesWrite(s, step, id)
  {
    if step.Proc? {
      AdvanceLost(c, s.sh, s.procs[step.i], step.ch);
    }
  }

  lemma LostSnoc(c: Config, steps: seq<Step>, id: Id)
    requires c.Valid() && steps != [] && Execute(c, Start(c), steps[..|steps| - 1]).Some?
    ensures var m := |steps| - 1;
            (exists n: nat :: LostAt(c, steps, n, id))
            <==> || (exists n: nat :: LostAt(c, steps[..m], n, id))
                 || LosesWrite(Execute(c, Start(c), steps[..m]).value, steps[m], id)
  {
    var m := |steps| - 1;
    forall n: nat | n < m ensures LostAt(c, steps, n, id) <==> LostAt(c, steps[..m], n, id) {
      assert steps[..m][..n] == steps[..n];
    }
    if n: nat :| LostAt(c, steps, n, id) {
      assert n < m ==> LostAt(c, steps[..m], n, id);
    }
    if n: nat :| LostAt(c, steps[..m], n, id) {
      assert LostAt(c, steps, n, id);
    }
    assert LostAt(c, steps, m, id) <==> LosesWrite(Execute(c, Start(c), steps[..m]).value, steps[m], id);
  }

  lemma {:induction false} LostMeans(c: Config, steps: seq<Step>, id: Id)
    requires c.Valid() && Execute(c, Start(c), steps).Some?
    ensures id in Execute(c, Start(c), steps).value.sh.past.lost <==> exists n: nat :: LostAt(c, steps, n, id)
  {
    if steps == [] {
    } else {
      var m := |steps| - 1;
      LostMeans(c, steps[..m], id);
      StepLost(c, Execute(c, Start(c), steps[..m]).value, steps[m], id);
      LostSnoc(c, steps, id);
    }
  }

  /** Over every run: the row of a delivery that has ended is pending exactly when its last write was
    * answered with an error. */
  lemma EndedPendingIff(c: Config, steps: seq<Step>, id: Id)
    requires c.Valid() && Execute(c, Start(c), steps).Some?
    requires var s := Execute(c, Start(c), steps).value; id in s.sh.rows && id !in Live(s.sh.past)
    ensures Execute(c, Start(c), steps).value.sh.rows[id].status == Pending <==> exists n: nat :: LostAt(c, steps, n, id)
  {
    Reachable(c, steps);
    LostMeans(c, steps, id);
    var s := Execute(c, Start(c), steps).value;
    assert RowOk(c, s.sh.past, id, s.sh.rows[id]);
  }

  // ---------- Exactly when one attempt too many is recorded ----------

  /** A retry is put back exactly when there is room; otherwise its delivery ends with one attempt
    * more than were made. */
  lemma RequeueIff(c: Config, s: System, i: nat)
    requires Inv(c, s) && i < |s.procs| && s.procs[i].Requeueing?
    ensures var m := Advance(c, s.sh, s.procs[i], Go);
            var job := s.procs[i].job;
            && m.Moved? && job.id in s.sh.past.sends
            && (m.g.Recording? <==> |s.sh.jobs| >= c.capacity)
            && (m.g.Recording? ==>
                  && m.g.update.id == job.id && m.g.update.status == Failed
                  && m.g.update.attempts == s.sh.past.sends[job.id] + 1 && m.sh == s.sh)
            && (!m.g.Recording? ==> m.g == Idle && m.sh.jobs == s.sh.jobs + [job])
  {
    assert HolderOk(c, s.sh.past, s.procs[i]);
  }

  /** A retry of the delivery finds the channel full. */
  ghost predicate Refuses(c: Config, s: System, step: Step, id: Id) {
    && step.Proc? && step.i < |s.procs| && s.procs[step.i].Requeueing? && s.procs[step.i].job.id == id
    && |s.sh.jobs| >= c.capacity
  }

  /** ... at step `n` of the run. */
  ghost predicate RefusedAt(c: Config, steps: seq<Step>, n: nat, id: Id)
    requires c.Valid()
  {
    && n < |steps| && Execute(c, Start(c), steps[..n]).Some?
    && Refuses(c, Execute(c, Start(c), steps[..n]).value, steps[n], id)
  }

  ghost predicate MarkedBy(g: Goroutine, id: Id) {
    g.Recording? && g.update.id == id && g.update.cause == RequeueFull
  }

  ghost predicate InMarkedHands(procs: seq<Goroutine>, id: Id) {
    exists i :: 0 <= i < |procs| && MarkedBy(procs[i], id)
  }

  ghost predicate EndedMarked(past: Past, id: Id) {
    id in past.ended && past.ended[id] == RequeueFull
  }

  ghost predicate Marked(s: System, id: Id) {
    EndedMarked(s.sh.past, id) || InMarkedHands(s.procs, id)
  }

  lemma AdvanceMarks(c: Config, sh: Shared, g: Goroutine, ch: Choice, id: Id)
    requires Advance(c, sh, g, ch).Moved?
    ensures var m := Advance(c, sh, g, ch);
            && m.sh.past.ended == (if Gone(g).Some? then sh.past.ended[g.update.id := g.update.cause] else sh.past.ended)
            && (MarkedBy(m.g, id) <==> g.Requeueing? && g.job.id == id && |sh.jobs| >= c.capacity)
  {}

  lemma HandsUpdated(procs: seq<Goroutine>, i: nat, g: Goroutine, id: Id)
    requires i < |procs|
    ensures InMarkedHands(procs[i := g], id)
            <==> MarkedBy(g, id) || exists j :: 0 <= j < |procs| && j != i && MarkedBy(procs[j], id)
    ensures InMarkedHands(procs, id)
            <==> MarkedBy(procs[i], id) || exists j :: 0 <= j < |procs| && j != i && MarkedBy(procs[j], id)
  {
    if MarkedBy(g, id) {
      assert MarkedBy(procs[i := g][i], id);
    }
    if j :| 0 <= j < |procs| && j != i && MarkedBy(procs[j], id) {
      assert MarkedBy(procs[i := g][j], id);
    }
  }

  lemma NoOtherMark(c: Config, s: System, i: nat, id: Id)
    requires Inv(c, s) && i < |s.procs| && Holds(s.procs[i]) == Some(id)
    ensures !EndedMarked(s.sh.past, id)
    ensures forall j :: 0 <= j < |s.procs| && j != i ==> !MarkedBy(s.procs[j], id)
    ensures s.procs[i].Refusing? ==> s.procs[i].update.cause == FirstFull
  {
    HeldOnce(s, i, id);
    assert HolderOk(c, s.sh.past, s.procs[i]);
    forall j | 0 <= j < |s.procs| && j != i ensures !MarkedBy(s.procs[j], id) {
      assert id !in Held(s.procs[j]);
    }
  }

  /** The goroutine that acts holds the delivery. */
  lemma HolderMarks(c: Config, s: System, i: nat, ch: Choice, id: Id)
    requires Inv(c, s) && i < |s.procs| && Advance(c, s.sh, s.procs[i], ch).Moved? && Holds(s.procs[i]) == Some(id)
    ensures var m := Advance(c, s.sh, s.procs[i], ch);
            Marked(System(m.sh, s.procs[i := m.g]), id) <==> Marked(s, id) || Refuses(c, s, Proc(i, ch), id)
  {
    NoOtherMark(c, s, i, id);
    AdvanceMarks(c, s.sh, s.procs[i], ch, id);
    HandsUpdated(s.procs, i, Advance(c, s.sh, s.procs[i], ch).g, id);
  }

  /** It does not. */
  lemma BystanderMarks(c: Config, s: System, i: nat, ch: Choice, id: Id)
    requires i < |s.procs| && Advance(c, s.sh, s.procs[i], ch).Moved? && Holds(s.procs[i]) != Some(id)
    ensures var m := Advance(c, s.sh, s.procs[i], ch);
            Marked(System(m.sh, s.procs[i := m.g]), id) <==> Marked(s, id) || Refuses(c, s, Proc(i, ch), id)
  {
    AdvanceMarks(c, s.sh, s.procs[i], ch, id);
    HandsUpdated(s.procs, i, Advance(c, s.sh, s.procs[i], ch).g, id);
  }

  lemma StepMarks(c: Config, s: System, step: Step, id: Id)
    requires Inv(c, s) && Do(c, s, step).Some?
    ensures Marked(Do(c, s, step).value, id) <==> Marked(s, id) || Refuses(c, s, step, id)
  {
    match step
    case Proc(i, ch) =>
      if Holds(s.procs[i]) == Some(id) {
        HolderMarks(c, s, i, ch, id);
      } else {
        BystanderMarks(c, s, i, ch, id);
      }
    case Call(channels) =>
      var procs' := s.procs + [Listing(channels)];
      assert forall j :: 0 <= j < |s.procs| ==> procs'[j] == s.procs[j];
    case Cascade(_) =>
  }

  lemma RefusedSnoc(c: Config, steps: seq<Step>, id: Id)
    requires c.Valid() && steps != [] && Execute(c, Start(c), steps[..|steps| - 1]).Some?
    ensures var m := |steps| - 1;
            (exists n: nat :: RefusedAt(c, steps, n, id))
            <==> || (exists n: nat :: RefusedAt(c, steps[..m], n, id))
                 || Refuses(c, Execute(c, Start(c), steps[..m]).value, steps[m], id)
  {
    var m := |steps| - 1;
    forall n: nat | n < m ensures RefusedAt(c, steps, n, id) <==> RefusedAt(c, steps[..m], n, id) {
      assert steps[..m][..n] == steps[..n];
    }
    if n: nat :| RefusedAt(c, steps, n, id) {
      assert n < m ==> RefusedAt(c, steps[..m], n, id);
    }
    if n: nat :| RefusedAt(c, steps[..m], n, id) {
      assert RefusedAt(c, steps, n, id);
    }
    assert RefusedAt(c, steps, m, id) <==> Refuses(c, Execute(c, Start(c), steps[..m]).value, steps[m], id);
  }

  lemma {:induction false} MarkedMeans(c: Config, steps: seq<Step>, id: Id)
    requires c.Valid() && Execute(c, Start(c), steps).Some?
    ensures Marked(Execute(c, Start(c), steps).value, id) <==> exists n: nat :: RefusedAt(c, steps, n, id)
  {
    if steps == [] {
    } else {
      var m := |steps| - 1;
      MarkedMeans(c, steps[..m], id);
      Reachable(c, steps[..m]);
      StepMarks(c, Execute(c, Start(c), steps[..m]).value, steps[m], id);
      RefusedSnoc(c, steps, id);
    }
  }

  /** Over every run: a final row records one attempt more than the sends made exactly when some retry
    * of its delivery found the channel full, and otherwise it records the sends. */
  lemma OverCountedIff(c: Config, steps: seq<Step>, id: Id)
    requires c.Valid() && Execute(c, Start(c), steps).Some?
    requires var s := Execute(c, Start(c), steps).value;
             id in s.sh.rows && s.sh.rows[id].status != Pending
    ensures var s := Execute(c, Start(c), steps).value;
            && id in s.sh.past.sends
            && s.sh.rows[id].attempts
               == s.sh.past.sends[id] + if exists n: nat :: RefusedAt(c, steps, n, id) then 1 else 0
  {
    var s := Execute(c, Start(c), steps).value;
    RecordedAttempts(c, steps, id);
    Reachable(c, steps);
    MarkedMeans(c, steps, id);
    forall i | 0 <= i < |s.procs| ensures !MarkedBy(s.procs[i], id) {
      if MarkedBy(s.procs[i], id) {
        HeldOnce(s, i, id);
      }
    }
  }

  // ---------- A run that records one attempt too many ----------

  lemma ExecuteSnoc(c: Config, s: System, steps: seq<Step>, step: Step)
    ensures Execute(c, s, steps + [step])
            == match Execute(c, s, steps)
               case None => None
               case Some(mid) => Do(c, mid, step)
  {
    assert (steps + [step])[..|steps|] == steps;
  }

  lemma {:induction false} ExecuteConcat(c: Config, s: System, first: seq<Step>, second: seq<Step>)
    ensures Execute(c, s, first + second)
            == match Execute(c, s, first)
               case None => None
               case Some(mid) => Execute(c, mid, second)
  {
    if second == [] {
      assert first + second == first;
    } else {
      var init, last := second[..|second| - 1], second[|second| - 1];
      assert second == init + [last] && first + second == (first + init) + [last];
      ExecuteConcat(c, s, first, init);
      ExecuteSnoc(c, s, first + init, last);
      if Execute(c, s, first).Some? {
        ExecuteSnoc(c, Execute(c, s, first).value, init, last);
      }
    }
  }

  lemma ExecuteJoin(c: Config, s: System, first: seq<Step>, mid: System, second: seq<Step>, end: System)
    requires Execute(c, s, first) == Some(mid) && Execute(c, mid, second) == Some(end)
    ensures Execute(c, s, first + second) == Some(end)
  {
    ExecuteConcat(c, s, first, second);
  }

  lemma {:induction false} RunThrough(c: Config, states: seq<System>, steps: seq<Step>)
    requires |states| == |steps| + 1
    requires forall i :: 0 <= i < |steps| ==> Do(c, states[i], steps[i]) == Some(states[i + 1])
    ensures Execute(c, states[0], steps) == Some(states[|steps|])
  {
    if steps == [] {
    } else {
      var n := |steps| - 1;
      RunThrough(c, states[..n + 1], steps[..n]);
      assert Do(c, states[n], steps[n]) == Some(states[n + 1]);
    }
  }

  /** Ids that differ in length. */
  function Name(n: nat): Id {
    seq(n, _ => 'x')
  }

  function Target(): Channel {
    Channel("channel", true)
  }

  function Targets(n: nat): seq<Channel> {
    seq(n, _ => Target())
  }

  /** An Enqueue call with one channel more than the queue holds offers its first delivery. */
  function FirstOffer(c: Config): seq<Step>
    requires c.Valid()
  {
    [Call(Targets(c.capacity + 1)), Proc(c.workers, Created(Name(0))), Proc(c.workers, Go)]
  }

  /** A worker takes it, fails to send it and sleeps. */
  function FirstSend(): seq<Step> {
    [Proc(0, Go), Proc(0, SendError(500, "unavailable")), Proc(0, Go)]
  }

  /** Meanwhile the call fills the channel. */
  function Fill(caller: nat, k: nat): seq<Step> {
    if k == 0 then [] else Fill(caller, k - 1) + Round(caller, k)
  }

  function Round(caller: nat, k: nat): seq<Step> {
    [Proc(caller, Created(Name(k))), Proc(caller, Go)]
  }

  /** The retry finds it full, and its row is written. */
  function Refusal(): seq<Step> {
    [Proc(0, Go), Proc(0, Updated(0))]
  }

  ghost predicate Retrying(c: Config, s: System, n: nat)
    requires c.Valid()
  {
    && |s.procs| == c.workers + 1
    && s.procs[0] == Requeueing(Job(Name(0), Target(), 2), 500, "unavailable")
    && s.procs[c.workers] == Listing(Targets(n))
    && Name(0) in s.sh.past.sends && s.sh.past.sends[Name(0)] == 1 && Name(0) in s.sh.rows
  }

  ghost predicate NamedUpTo(s: System, k: nat) {
    forall id :: id in s.sh.past.sends ==> |id| <= k
  }

  lemma FirstOfferRun(c: Config) returns (s: System)
    requires c.Valid()
    ensures Execute(c, Start(c), FirstOffer(c)) == Some(s)
    ensures |s.procs| == c.workers + 1 && s.procs[0] == Idle && s.procs[c.workers] == Listing(Targets(c.capacity))
    ensures s.sh.jobs == [Job(Name(0), Target(), 1)] && Name(0) in s.sh.rows
    ensures s.sh.past.sends == map[Name(0) := 0] && Name(0) in s.sh.past.slept
  {
    var s1 := Do(c, Start(c), Call(Targets(c.capacity + 1))).value;
    assert s1.procs[c.workers] == Listing(Targets(c.capacity + 1)) && s1.procs[0] == Idle;
    assert Targets(c.capacity + 1)[1..] == Targets(c.capacity);
    var s2 := Do(c, s1, Proc(c.workers, Created(Name(0)))).value;
    s := Do(c, s2, Proc(c.workers, Go)).value;
    RunThrough(c, [Start(c), s1, s2, s], FirstOffer(c));
  }

  lemma FirstSendRun(c: Config, s: System) returns (s': System)
    requires c.Valid() && c.maxRetries >= 2 && |s.procs| == c.workers + 1 && s.procs[0] == Idle
    requires s.procs[c.workers] == Listing(Targets(c.capacity))
    requires s.sh.jobs == [Job(Name(0), Target(), 1)] && Name(0) in s.sh.rows
    requires s.sh.past.sends == map[Name(0) := 0] && Name(0) in s.sh.past.slept
    ensures Execute(c, s, FirstSend()) == Some(s')
    ensures Retrying(c, s', c.capacity) && s'.sh.jobs == [] && NamedUpTo(s', 0)
  {
    var s1 := Do(c, s, Proc(0, Go)).value;
    var s2 := Do(c, s1, Proc(0, SendError(500, "unavailable"))).value;
    s' := Do(c, s2, Proc(0, Go)).value;
    RunThrough(c, [s, s1, s2, s'], FirstSend());
  }

  lemma FillOne(c: Config, s: System, n: nat, k: nat) returns (s': System)
    requires c.Valid() && Retrying(c, s, n + 1) && k > 0 && NamedUpTo(s, k - 1) && |s.sh.jobs| < c.capacity
    ensures Execute(c, s, Round(c.workers, k)) == Some(s')
    ensures Retrying(c, s', n) && |s'.sh.jobs| == |s.sh.jobs| + 1
    ensures NamedUpTo(s', k)
  {
    assert Targets(n + 1)[1..] == Targets(n) && Targets(n + 1)[0] == Target();
    assert |Name(k)| == k && |Name(0)| == 0;
    var mid := Do(c, s, Proc(c.workers, Created(Name(k)))).value;
    s' := Do(c, mid, Proc(c.workers, Go)).value;
    RunThrough(c, [s, mid, s'], Round(c.workers, k));
  }

  /** One round more, from what the rounds before it reach. */
  lemma FillExtend(c: Config, s: System, mid: System, n: nat, k: nat) returns (s': System)
    requires c.Valid() && k > 0 && Execute(c, s, Fill(c.workers, k - 1)) == Some(mid)
    requires Retrying(c, mid, n + 1) && NamedUpTo(mid, k - 1) && |mid.sh.jobs| < c.capacity
    ensures Execute(c, s, Fill(c.workers, k)) == Some(s')
    ensures Retrying(c, s', n) && |s'.sh.jobs| == |mid.sh.jobs| + 1 && NamedUpTo(s', k)
  {
    s' := FillOne(c, mid, n, k);
    ExecuteJoin(c, s, Fill(c.workers, k - 1), mid, Round(c.workers, k), s');
  }

  lemma NoRounds(c: Config, s: System)
    requires c.Valid()
    ensures Execute(c, s, Fill(c.workers, 0)) == Some(s)
  {}

  lemma {:induction false} FillRun(c: Config, s: System, n: nat, k: nat) returns (s': System)
    requires c.Valid() && Retrying(c, s, n) && s.sh.jobs == [] && k <= n && k <= c.capacity && NamedUpTo(s, 0)
    ensures Execute(c, s, Fill(c.workers, k)) == Some(s')
    ensures Retrying(c, s', n - k) && |s'.sh.jobs| == k && NamedUpTo(s', k)
    decreases k
  {
    if k == 0 {
      NoRounds(c, s);
      s' := s;
    } else {
      var mid := FillRun(c, s, n, k - 1);
      s' := FillExtend(c, s, mid, n - k, k);
    }
  }

  lemma RefusalRun(c: Config, s: System) returns (s': System)
    requires c.Valid() && Retrying(c, s, 0) && |s.sh.jobs| == c.capacity
    ensures Execute(c, s, Refusal()) == Some(s')
    ensures Name(0) in s'.sh.rows && s'.sh.rows[Name(0)].status == Failed && s'.sh.rows[Name(0)].attempts == 2
    ensures Name(0) in s'.sh.past.sends && s'.sh.past.sends[Name(0)] == 1
  {
    var mid := Do(c, s, Proc(0, Go)).value;
    s' := Do(c, mid, Proc(0, Updated(0))).value;
    RunThrough(c, [s, mid, s'], Refusal());
  }

  /** In every configuration that retries at all there is a run whose only finished delivery was sent
    * once and is recorded with two attempts. */
  lemma OverCountAttained(c: Config)
    requires c.Valid() && c.maxRetries >= 2
    ensures var s := Execute(c, Start(c), FirstOffer(c) + FirstSend() + Fill(c.workers, c.capacity) + Refusal());
            && s.Some?
            && Name(0) in s.value.sh.rows && Name(0) in s.value.sh.past.sends
            && s.value.sh.rows[Name(0)].status == Failed
            && s.value.sh.rows[Name(0)].attempts == s.value.sh.past.sends[Name(0)] + 1
  {
    var s1 := FirstOfferRun(c);
    var s2 := FirstSendRun(c, s1);
    var s3 := FillRun(c, s2, c.capacity, c.capacity);
    var s4 := RefusalRun(c, s3);
    ExecuteJoin(c, Start(c), FirstOffer(c), s1, FirstSend(), s2);
    ExecuteJoin(c, Start(c), FirstOffer(c) + FirstSend(), s2, Fill(c.workers, c.capacity), s3);
    ExecuteJoin(c, Start(c), FirstOffer(c) + FirstSend() + Fill(c.workers, c.capacity), s3, Refusal(), s4);
  }

  // ---------- A run that leaves a row pending ----------

  /** An Enqueue call offers one delivery. */
  function OneOffer(c: Config): seq<Step>
    requires c.Valid()
  {
    [Call([Target()]), Proc(c.workers, Created(Name(0))), Proc(c.workers, Go)]
  }

  /** It is sent, and its last write fails. */
  function SentUnrecorded(): seq<Step> {
    [Proc(0, Go), Proc(0, SendOk(200)), Proc(0, UpdateError)]
  }

  lemma OneOfferRun(c: Config) returns (s: System)
    requires c.Valid()
    ensures Execute(c, Start(c), OneOffer(c)) == Some(s)
    ensures |s.procs| > 0 && s.procs[0] == Idle && s.sh.jobs == [Job(Name(0), Target(), 1)]
    ensures s.sh.past.sends == map[Name(0) := 0] && Name(0) in s.sh.rows && s.sh.rows[Name(0)].status == Pending
  {
    var s1 := Do(c, Start(c), Call([Target()])).value;
    assert s1.procs[c.workers] == Listing([Target()]) && s1.procs[0] == Idle;
    var s2 := Do(c, s1, Proc(c.workers, Created(Name(0)))).value;
    s := Do(c, s2, Proc(c.workers, Go)).value;
    RunThrough(c, [Start(c), s1, s2, s], OneOffer(c));
  }

  lemma SentUnrecordedRun(c: Config, s: System) returns (s': System)
    requires c.Valid() && |s.procs| > 0 && s.procs[0] == Idle && s.sh.jobs == [Job(Name(0), Target(), 1)]
    requires s.sh.past.sends == map[Name(0) := 0] && Name(0) in s.sh.rows && s.sh.rows[Name(0)].status == Pending
    ensures Execute(c, s, SentUnrecorded()) == Some(s')
    ensures Name(0) in s'.sh.past.lost && Name(0) in s'.sh.rows && s'.sh.rows[Name(0)].status == Pending
    ensures Name(0) in s'.sh.past.ended && s'.sh.past.ended[Name(0)] == Sent
  {
    var s1 := Do(c, s, Proc(0, Go)).value;
    var s2 := Do(c, s1, Proc(0, SendOk(200))).value;
    s' := Do(c, s2, Proc(0, UpdateError)).value;
    RunThrough(c, [s, s1, s2, s'], SentUnrecorded());
  }

  /** In every configuration there is a run whose only delivery was sent and stays pending. */
  lemma LostAttained(c: Config)
    requires c.Valid()
    ensures var s := Execute(c, Start(c), OneOffer(c) + SentUnrecorded());
            && s.Some? && Name(0) in s.value.sh.past.lost
            && Name(0) in s.value.sh.past.ended && s.value.sh.past.ended[Name(0)] == Sent
            && Name(0) in s.value.sh.rows && s.value.sh.rows[Name(0)].status == Pending
  {
    var s := OneOfferRun(c);
    var s' := SentUnrecordedRun(c, s);
    ExecuteJoin(c, Start(c), OneOffer(c), s, SentUnrecorded(), s');
  }
}
