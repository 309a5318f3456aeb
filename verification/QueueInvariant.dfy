/** Every step of every interleaving keeps the queue's invariant: deliveries are conserved and
  * every attempt is accounted for. */
module QueueInvariant {
  import opened Options
  import opened NotificationQueue

  // ---------- Where the deliveries go in one action ----------

  /** The delivery an action ends, and the one it creates. */
  function Gone(g: Goroutine): Option<Id> {
    if g.Recording? || g.Refusing? then Some(g.update.id) else None
  }

  function Fresh(g: Goroutine, ch: Choice): Option<Id> {
    if g.Listing? && ch.Created? then Some(ch.id) else None
  }

  function AsSet(o: Option<Id>): set<Id> {
    match o
    case None => {}
    case Some(id) => {id}
  }

  /** The delivery whose record an action may change. */
  function Touched(g: Goroutine, ch: Choice): set<Id> {
    AsSet(Holds(g)) + AsSet(Fresh(g, ch))
  }

  /** An action takes the front job, puts its own at the back, or leaves the channel alone. */
  lemma AdvanceHands(c: Config, sh: Shared, g: Goroutine, ch: Choice)
    requires Advance(c, sh, g, ch).Moved?
    ensures var m := Advance(c, sh, g, ch);
            if g.Idle? then
              sh.jobs != [] && m.sh.jobs == sh.jobs[1..] && Holds(m.g) == Some(sh.jobs[0].id)
            else if |m.sh.jobs| > |sh.jobs| then
              && (g.Requeueing? || g.Offering?) && m.sh.jobs == sh.jobs + [g.job]
              && Holds(g) == Some(g.job.id) && Holds(m.g) == None
            else
              && m.sh.jobs == sh.jobs
              && if Gone(g).Some? then Holds(g) == Gone(g) && Holds(m.g) == None
                 else if Fresh(g, ch).Some? then Holds(g) == None && Holds(m.g) == Fresh(g, ch)
                 else Holds(m.g) == Holds(g)
  {}

  /** Only creating adds a record, and only a last write closes one. */
  lemma AdvanceKeys(c: Config, sh: Shared, g: Goroutine, ch: Choice)
    requires Advance(c, sh, g, ch).Moved?
    ensures var past' := Advance(c, sh, g, ch).sh.past;
            && past'.sends.Keys == sh.past.sends.Keys + AsSet(Fresh(g, ch))
            && past'.slept.Keys == sh.past.slept.Keys + AsSet(Fresh(g, ch))
            && past'.ended.Keys == sh.past.ended.Keys + AsSet(Gone(g))
            && sh.past.lost <= past'.lost <= sh.past.lost + AsSet(Gone(g))
            && (Fresh(g, ch).Some? ==> ch.id !in sh.past.sends)
            && Advance(c, sh, g, ch).sh.rows.Keys == sh.rows.Keys + AsSet(Fresh(g, ch))
  {}

  /** Moving a delivery between the channel and a hand. */
  lemma ChannelTokens(jobs: seq<Job>, job: Job)
    ensures Bag(jobs + [job], Queued) == Bag(jobs, Queued) + multiset{job.id}
    ensures jobs != [] ==> Bag(jobs[1..], Queued) + multiset{jobs[0].id} == Bag(jobs, Queued)
  {
    BagAppend(jobs, Queued, job);
    if jobs != [] {
      BagTail(jobs, Queued);
    }
  }

  /** An action passes on what it was given: what it ends leaves, what it creates enters. */
  lemma AdvanceTokens(c: Config, sh: Shared, g: Goroutine, ch: Choice)
    requires Advance(c, sh, g, ch).Moved?
    ensures var m := Advance(c, sh, g, ch);
            Bag(m.sh.jobs, Queued) + Held(m.g) + One(Gone(g)) == Bag(sh.jobs, Queued) + Held(g) + One(Fresh(g, ch))
  {
    AdvanceHands(c, sh, g, ch);
    var m := Advance(c, sh, g, ch);
    HandTokens(sh.jobs, m.sh.jobs, Holds(g), Holds(m.g), Gone(g), Fresh(g, ch));
  }

  lemma HandTokens(jobs: seq<Job>, jobs': seq<Job>, h: Option<Id>, h': Option<Id>, gone: Option<Id>, made: Option<Id>)
    requires || (jobs != [] && jobs' == jobs[1..] && h == None && h' == Some(jobs[0].id) && gone == made == None)
             || (exists job :: jobs' == jobs + [job] && h == Some(job.id) && h' == None && gone == made == None)
             || (jobs' == jobs && h == gone && h' == made && (gone == None || made == None))
             || (jobs' == jobs && h == h' && gone == made == None)
    ensures Bag(jobs', Queued) + One(h') + One(gone) == Bag(jobs, Queued) + One(h) + One(made)
  {
    if jobs' != jobs {
      if jobs != [] && jobs' == jobs[1..] {
        ChannelTokens(jobs, jobs[0]);
      } else {
        var job :| jobs' == jobs + [job] && h == Some(job.id);
        ChannelTokens(jobs, job);
      }
    }
  }

  lemma LiveLaw(sends: set<Id>, ended: set<Id>, gone: Option<Id>, made: Option<Id>)
    requires gone.Some? ==> made == None && gone.value in sends - ended
    requires made.Some? ==> made.value !in sends && ended <= sends
    ensures multiset((sends + AsSet(made)) - (ended + AsSet(gone))) + One(gone) == multiset(sends - ended) + One(made)
  {
    var live, live' := sends - ended, (sends + AsSet(made)) - (ended + AsSet(gone));
    match gone
    case Some(id) =>
      assert live == live' + {id};
    case None =>
      match made
      case Some(id) => assert live' == live + {id};
      case None => assert live' == live;
  }

  /** Exchanging the hands of one goroutine inside a sum of bags. */
  lemma Rebalance(q: multiset<Id>, q': multiset<Id>, p: multiset<Id>, p': multiset<Id>,
                  h: multiset<Id>, h': multiset<Id>, gone: multiset<Id>, made: multiset<Id>)
    requires p' + h == p + h' && q' + h' + gone == q + h + made
    ensures q' + p' + gone == q + p + made
  {
    forall id ensures (q' + p' + gone)[id] == (q + p + made)[id] {
      assert (p' + h)[id] == (p + h')[id];
      assert (q' + h' + gone)[id] == (q + h + made)[id];
    }
  }

  lemma StepBag(c: Config, s: System, i: nat, ch: Choice)
    requires i < |s.procs| && Advance(c, s.sh, s.procs[i], ch).Moved?
    ensures var m := Advance(c, s.sh, s.procs[i], ch);
            Tokens(System(m.sh, s.procs[i := m.g])) + One(Gone(s.procs[i])) == Tokens(s) + One(Fresh(s.procs[i], ch))
  {
    var g := s.procs[i];
    var m := Advance(c, s.sh, g, ch);
    AdvanceTokens(c, s.sh, g, ch);
    BagUpdate(s.procs, Held, i, m.g);
    Rebalance(Bag(s.sh.jobs, Queued), Bag(m.sh.jobs, Queued), Bag(s.procs, Held), Bag(s.procs[i := m.g], Held),
              Held(g), Held(m.g), One(Gone(g)), One(Fresh(g, ch)));
  }

  lemma StepLive(c: Config, sh: Shared, g: Goroutine, ch: Choice)
    requires Advance(c, sh, g, ch).Moved?
    requires sh.past.ended.Keys <= sh.past.sends.Keys
    requires Gone(g).Some? ==> Gone(g).value in Live(sh.past)
    ensures multiset(Live(Advance(c, sh, g, ch).sh.past)) + One(Gone(g)) == multiset(Live(sh.past)) + One(Fresh(g, ch))
  {
    AdvanceKeys(c, sh, g, ch);
    LiveLaw(sh.past.sends.Keys, sh.past.ended.Keys, Gone(g), Fresh(g, ch));
  }

  lemma Cancel(a: multiset<Id>, b: multiset<Id>, x: multiset<Id>)
    requires a + x == b + x
    ensures a == b
  {
    forall id ensures a[id] == b[id] {
      assert (a + x)[id] == (b + x)[id];
    }
  }

  lemma StepTokens(c: Config, s: System, i: nat, ch: Choice)
    requires Conserved(s) && i < |s.procs| && Advance(c, s.sh, s.procs[i], ch).Moved?
    requires Gone(s.procs[i]).Some? ==> Gone(s.procs[i]).value in Live(s.sh.past)
    ensures var m := Advance(c, s.sh, s.procs[i], ch);
            Tokens(System(m.sh, s.procs[i := m.g])) == multiset(Live(m.sh.past))
  {
    var m := Advance(c, s.sh, s.procs[i], ch);
    StepBag(c, s, i, ch);
    StepLive(c, s.sh, s.procs[i], ch);
    Cancel(Tokens(System(m.sh, s.procs[i := m.g])), multiset(Live(m.sh.past)), One(Gone(s.procs[i])));
  }

  /** A delivery in one goroutine's hands is nowhere else. */
  lemma HeldOnce(s: System, i: nat, id: Id)
    requires Conserved(s) && i < |s.procs| && id in Held(s.procs[i])
    ensures id in Live(s.sh.past)
    ensures forall j :: 0 <= j < |s.procs| && j != i ==> id !in Held(s.procs[j])
    ensures forall q :: 0 <= q < |s.sh.jobs| ==> s.sh.jobs[q].id != id
  {
    BagHolds(s.procs, Held, i);
    assert Tokens(s)[id] <= 1;
    forall j | 0 <= j < |s.procs| && j != i ensures id !in Held(s.procs[j]) {
      if i < j {
        BagHoldsTwo(s.procs, Held, i, j);
      } else {
        BagHoldsTwo(s.procs, Held, j, i);
      }
    }
    forall q | 0 <= q < |s.sh.jobs| ensures s.sh.jobs[q].id != id {
      BagHolds(s.sh.jobs, Queued, q);
    }
  }

  /** A delivery that was never created is nowhere. */
  lemma NewIsNowhere(s: System, id: Id)
    requires Conserved(s) && id !in s.sh.past.sends
    ensures forall j :: 0 <= j < |s.procs| ==> id !in Held(s.procs[j])
    ensures forall q :: 0 <= q < |s.sh.jobs| ==> s.sh.jobs[q].id != id
    ensures id !in s.sh.rows && id !in s.sh.past.ended
  {
    assert id !in Tokens(s);
    forall j | 0 <= j < |s.procs| ensures id !in Held(s.procs[j]) {
      BagHolds(s.procs, Held, j);
    }
    forall q | 0 <= q < |s.sh.jobs| ensures s.sh.jobs[q].id != id {
      BagHolds(s.sh.jobs, Queued, q);
    }
  }

  // ---------- What an action leaves alone ----------

  ghost predicate SameRecord(past: Past, past': Past, id: Id) {
    && (id in past.sends <==> id in past'.sends) && (id in past.sends ==> past'.sends[id] == past.sends[id])
    && (id in past.slept <==> id in past'.slept) && (id in past.slept ==> past'.slept[id] == past.slept[id])
    && (id in past.last <==> id in past'.last) && (id in past.last ==> past'.last[id] == past.last[id])
    && (id in past.ended <==> id in past'.ended) && (id in past.ended ==> past'.ended[id] == past.ended[id])
    && (id in past.lost <==> id in past'.lost)
  }

  lemma AdvanceFrame(c: Config, sh: Shared, g: Goroutine, ch: Choice, id: Id)
    requires Advance(c, sh, g, ch).Moved? && id !in Touched(g, ch)
    ensures var m := Advance(c, sh, g, ch);
            && SameRecord(sh.past, m.sh.past, id)
            && (id in sh.rows <==> id in m.sh.rows) && (id in sh.rows ==> m.sh.rows[id] == sh.rows[id])
  {}

  lemma HolderFrame(c: Config, past: Past, past': Past, g: Goroutine)
    requires HolderOk(c, past, g) && forall id :: id in Held(g) ==> SameRecord(past, past', id)
    ensures HolderOk(c, past', g)
  {
    match g
    case Idle =>
    case Sending(job) => assert job.id in Held(g);
    case Sleeping(job, _, _) => assert job.id in Held(g);
    case Requeueing(job, _, _) => assert job.id in Held(g);
    case Recording(u) => assert u.id in Held(g);
    case Listing(_) =>
    case Offering(job, _) => assert job.id in Held(g);
    case Refusing(u, _) => assert u.id in Held(g);
    case Returned =>
  }

  // ---------- What an action does to its own delivery ----------

  lemma SquaresGrow(m: nat, n: nat)
    requires m <= n
    ensures SumOfSquares(m) <= SumOfSquares(n)
    decreases n
  {
    if m == n {
    } else {
      SquaresGrow(m, n - 1);
    }
  }

  /** The goroutine's own accounting, and that of a job it puts on the channel. */
  lemma AdvanceHolder(c: Config, sh: Shared, g: Goroutine, ch: Choice)
    requires c.Valid() && HolderOk(c, sh.past, g) && Advance(c, sh, g, ch).Moved?
    requires forall j :: 0 <= j < |sh.jobs| ==> JobOk(c, sh.past, sh.jobs[j])
    ensures var m := Advance(c, sh, g, ch);
            && HolderOk(c, m.sh.past, m.g)
            && (|m.sh.jobs| > |sh.jobs| ==> JobOk(c, m.sh.past, m.sh.jobs[|sh.jobs|]))
            && IsWorker(m.g) == IsWorker(g)
            && (|sh.jobs| <= c.capacity ==> |m.sh.jobs| <= c.capacity)
  {
    match g
    case Sending(job) => SquaresGrow(job.attempt - 1, c.maxRetries - 1);
    case Requeueing(job, _, _) => SquaresGrow(job.attempt - 1, c.maxRetries - 1);
    case _ =>
  }

  /** The rows of the delivery it touches. */
  lemma AdvanceRow(c: Config, sh: Shared, g: Goroutine, ch: Choice, id: Id)
    requires c.Valid() && HolderOk(c, sh.past, g) && Advance(c, sh, g, ch).Moved? && id in Touched(g, ch)
    requires id in Held(g) ==> id in Live(sh.past)
    requires id !in sh.past.sends ==> id !in sh.rows && id !in sh.past.ended
    requires sh.past.lost <= sh.past.ended.Keys
    requires id in sh.rows ==> RowOk(c, sh.past, id, sh.rows[id])
    ensures var m := Advance(c, sh, g, ch);
            && (id in m.sh.rows ==> RowOk(c, m.sh.past, id, m.sh.rows[id]))
            && (id in m.sh.past.ended ==> Spent(c, m.sh.past, id))
  {
    match g
    case Recording(u) => assert id == u.id;
    case Refusing(u, _) => assert id == u.id;
    case _ =>
  }

  // ---------- Every step keeps the invariant ----------

  /** The delivery an action touches is in no other hands. */
  lemma TouchedElsewhere(c: Config, s: System, i: nat, ch: Choice, id: Id)
    requires Conserved(s) && i < |s.procs| && Advance(c, s.sh, s.procs[i], ch).Moved?
    requires id in Touched(s.procs[i], ch)
    ensures forall j :: 0 <= j < |s.procs| && j != i ==> id !in Held(s.procs[j])
    ensures forall q :: 0 <= q < |s.sh.jobs| ==> s.sh.jobs[q].id != id
    ensures id in Held(s.procs[i]) ==> id in Live(s.sh.past)
    ensures id !in s.sh.past.sends ==> id !in s.sh.rows && id !in s.sh.past.ended
  {
    if id in Held(s.procs[i]) {
      HeldOnce(s, i, id);
    } else {
      NewIsNowhere(s, id);
    }
  }

  /** A job on the channel after an action was there before, or was put there by it. */
  lemma JobOrigin(c: Config, sh: Shared, g: Goroutine, ch: Choice, q: nat)
    requires Advance(c, sh, g, ch).Moved? && q < |Advance(c, sh, g, ch).sh.jobs|
    ensures var jobs := Advance(c, sh, g, ch).sh.jobs;
            jobs[q] in sh.jobs || (|jobs| > |sh.jobs| && q == |sh.jobs|)
  {}

  lemma StepHolders(c: Config, s: System, i: nat, ch: Choice, j: nat)
    requires Inv(c, s) && i < |s.procs| && Advance(c, s.sh, s.procs[i], ch).Moved? && j < |s.procs|
    ensures var m := Advance(c, s.sh, s.procs[i], ch); HolderOk(c, m.sh.past, s.procs[i := m.g][j])
  {
    var m := Advance(c, s.sh, s.procs[i], ch);
    if j == i {
      AdvanceHolder(c, s.sh, s.procs[i], ch);
    } else {
      forall id | id in Held(s.procs[j]) ensures SameRecord(s.sh.past, m.sh.past, id) {
        if id in Touched(s.procs[i], ch) {
          TouchedElsewhere(c, s, i, ch, id);
        }
        AdvanceFrame(c, s.sh, s.procs[i], ch, id);
      }
      HolderFrame(c, s.sh.past, m.sh.past, s.procs[j]);
    }
  }

  lemma StepJobs(c: Config, s: System, i: nat, ch: Choice, q: nat)
    requires Inv(c, s) && i < |s.procs| && Advance(c, s.sh, s.procs[i], ch).Moved?
    requires q < |Advance(c, s.sh, s.procs[i], ch).sh.jobs|
    ensures var m := Advance(c, s.sh, s.procs[i], ch); JobOk(c, m.sh.past, m.sh.jobs[q])
  {
    var m := Advance(c, s.sh, s.procs[i], ch);
    JobOrigin(c, s.sh, s.procs[i], ch, q);
    if m.sh.jobs[q] in s.sh.jobs {
      var k :| 0 <= k < |s.sh.jobs| && s.sh.jobs[k] == m.sh.jobs[q];
      if m.sh.jobs[q].id in Touched(s.procs[i], ch) {
        TouchedElsewhere(c, s, i, ch, m.sh.jobs[q].id);
      }
      AdvanceFrame(c, s.sh, s.procs[i], ch, m.sh.jobs[q].id);
    } else {
      AdvanceHolder(c, s.sh, s.procs[i], ch);
    }
  }

  lemma StepRows(c: Config, s: System, i: nat, ch: Choice, id: Id)
    requires Inv(c, s) && i < |s.procs| && Advance(c, s.sh, s.procs[i], ch).Moved?
    ensures var m := Advance(c, s.sh, s.procs[i], ch);
            && (id in m.sh.rows ==> RowOk(c, m.sh.past, id, m.sh.rows[id]))
            && (id in m.sh.past.ended ==> Spent(c, m.sh.past, id))
  {
    if id in Touched(s.procs[i], ch) {
      TouchedElsewhere(c, s, i, ch, id);
      AdvanceRow(c, s.sh, s.procs[i], ch, id);
    } else {
      AdvanceFrame(c, s.sh, s.procs[i], ch, id);
      if id in s.sh.rows {
        assert RowOk(c, s.sh.past, id, s.sh.rows[id]);
      }
      if id in s.sh.past.ended {
        assert Spent(c, s.sh.past, id);
      }
    }
  }

  lemma StepAccounting(c: Config, s: System, i: nat, ch: Choice)
    requires Inv(c, s) && i < |s.procs| && Advance(c, s.sh, s.procs[i], ch).Moved?
    ensures var m := Advance(c, s.sh, s.procs[i], ch); Accounting(c, System(m.sh, s.procs[i := m.g]))
  {
    var m := Advance(c, s.sh, s.procs[i], ch);
    var procs' := s.procs[i := m.g];
    forall j | 0 <= j < |procs'| ensures HolderOk(c, m.sh.past, procs'[j]) {
      StepHolders(c, s, i, ch, j);
    }
    forall q | 0 <= q < |m.sh.jobs| ensures JobOk(c, m.sh.past, m.sh.jobs[q]) {
      StepJobs(c, s, i, ch, q);
    }
    forall id | id in m.sh.rows ensures RowOk(c, m.sh.past, id, m.sh.rows[id]) {
      StepRows(c, s, i, ch, id);
    }
    forall id | id in m.sh.past.ended ensures Spent(c, m.sh.past, id) {
      StepRows(c, s, i, ch, id);
    }
  }

  lemma StepKeys(c: Config, sh: Shared, g: Goroutine, ch: Choice)
    requires Advance(c, sh, g, ch).Moved?
    requires Gone(g).Some? ==> Gone(g).value in sh.past.sends
    requires sh.past.ended.Keys <= sh.past.sends.Keys && sh.past.slept.Keys == sh.past.sends.Keys
    requires sh.past.lost <= sh.past.ended.Keys && sh.rows.Keys <= sh.past.sends.Keys
    ensures var m := Advance(c, sh, g, ch);
            && m.sh.past.ended.Keys <= m.sh.past.sends.Keys && m.sh.past.slept.Keys == m.sh.past.sends.Keys
            && m.sh.past.lost <= m.sh.past.ended.Keys && m.sh.rows.Keys <= m.sh.past.sends.Keys
  {
    AdvanceKeys(c, sh, g, ch);
  }

  lemma StepConserved(c: Config, s: System, i: nat, ch: Choice)
    requires Conserved(s) && i < |s.procs| && Advance(c, s.sh, s.procs[i], ch).Moved?
    ensures var m := Advance(c, s.sh, s.procs[i], ch); Conserved(System(m.sh, s.procs[i := m.g]))
  {
    if Gone(s.procs[i]).Some? {
      HeldOnce(s, i, s.procs[i].update.id);
    }
    StepTokens(c, s, i, ch);
    StepKeys(c, s.sh, s.procs[i], ch);
  }

  predicate Creates(g: Goroutine, ch: Choice) {
    g.Listing? && ch.Created?
  }

  lemma AdvanceCreated(c: Config, sh: Shared, g: Goroutine, ch: Choice)
    requires Advance(c, sh, g, ch).Moved?
    ensures |Advance(c, sh, g, ch).sh.past.sends| == |sh.past.sends| + if Creates(g, ch) then 1 else 0
  {
    AdvanceKeys(c, sh, g, ch);
    KeyCount(sh.past.sends, Advance(c, sh, g, ch).sh.past.sends, Fresh(g, ch));
  }

  lemma KeyCount(sends: map<Id, nat>, sends': map<Id, nat>, made: Option<Id>)
    requires sends'.Keys == sends.Keys + AsSet(made) && (made.Some? ==> made.value !in sends)
    ensures |sends'| == |sends| + if made.Some? then 1 else 0
  {
    assert |sends'| == |sends'.Keys| && |sends| == |sends.Keys|;
  }

  lemma WorkerCredit(c: Config, sh: Shared, g: Goroutine, ch: Choice)
    requires c.Valid() && HolderOk(c, sh.past, g) && Advance(c, sh, g, ch).Moved? && IsWorker(g)
    ensures var m := Advance(c, sh, g, ch);
            m.sh.past.total + Sum(m.sh.jobs, JobCredit(c)) + Credit(c)(m.g)
            <= sh.past.total + Sum(sh.jobs, JobCredit(c)) + Credit(c)(g)
  {
    match g
    case Idle => SumTail(sh.jobs, JobCredit(c));
    case Requeueing(job, _, _) => SumAppend(sh.jobs, JobCredit(c), job);
    case _ =>
  }

  lemma CallerCredit(c: Config, sh: Shared, g: Goroutine, ch: Choice)
    requires c.Valid() && HolderOk(c, sh.past, g) && Advance(c, sh, g, ch).Moved? && !IsWorker(g)
    ensures var m := Advance(c, sh, g, ch);
            m.sh.past.total + Sum(m.sh.jobs, JobCredit(c)) + Credit(c)(m.g)
            <= sh.past.total + Sum(sh.jobs, JobCredit(c)) + Credit(c)(g) + if Creates(g, ch) then c.maxRetries else 0
  {
    if g.Offering? {
      SumAppend(sh.jobs, JobCredit(c), g.job);
    }
  }

  /** A send pays one unit of its delivery's credit; only a new delivery brings credit. */
  lemma AdvanceCredit(c: Config, sh: Shared, g: Goroutine, ch: Choice)
    requires c.Valid() && HolderOk(c, sh.past, g) && Advance(c, sh, g, ch).Moved?
    ensures var m := Advance(c, sh, g, ch);
            m.sh.past.total + Sum(m.sh.jobs, JobCredit(c)) + Credit(c)(m.g)
            <= sh.past.total + Sum(sh.jobs, JobCredit(c)) + Credit(c)(g) + if Creates(g, ch) then c.maxRetries else 0
  {
    if IsWorker(g) {
      WorkerCredit(c, sh, g, ch);
    } else {
      CallerCredit(c, sh, g, ch);
    }
  }

  lemma StepSolvent(c: Config, s: System, i: nat, ch: Choice)
    requires Inv(c, s) && i < |s.procs| && Advance(c, s.sh, s.procs[i], ch).Moved?
    ensures var m := Advance(c, s.sh, s.procs[i], ch); Solvent(c, System(m.sh, s.procs[i := m.g]))
  {
    var m := Advance(c, s.sh, s.procs[i], ch);
    AdvanceCredit(c, s.sh, s.procs[i], ch);
    AdvanceCreated(c, s.sh, s.procs[i], ch);
    SumUpdate(s.procs, Credit(c), i, m.g);
    BudgetGrows(c.maxRetries, |s.sh.past.sends|);
  }

  lemma BudgetGrows(perDelivery: int, deliveries: int)
    ensures perDelivery * (deliveries + 1) == perDelivery * deliveries + perDelivery
  {}

  lemma StepKeepsInv(c: Config, s: System, step: Step)
    requires Inv(c, s) && Do(c, s, step).Some?
    ensures Inv(c, Do(c, s, step).value)
  {
    match step
    case Proc(i, ch) =>
      StepAccounting(c, s, i, ch);
      StepConserved(c, s, i, ch);
      StepSolvent(c, s, i, ch);
      StepRoles(c, s, i, ch);
    case Call(channels) => CallKeepsInv(c, s, channels);
    case Cascade(ids) =>
  }

  lemma StepRoles(c: Config, s: System, i: nat, ch: Choice)
    requires Inv(c, s) && i < |s.procs| && Advance(c, s.sh, s.procs[i], ch).Moved?
    ensures var m := Advance(c, s.sh, s.procs[i], ch); Roles(c, System(m.sh, s.procs[i := m.g]))
  {
    AdvanceHolder(c, s.sh, s.procs[i], ch);
  }

  lemma CallTokens(s: System, channels: seq<Channel>)
    requires Conserved(s)
    ensures Conserved(s.(procs := s.procs + [Listing(channels)]))
  {
    BagAppend(s.procs, Held, Listing(channels));
    assert Bag(s.procs + [Listing(channels)], Held) == Bag(s.procs, Held);
  }

  lemma CallSolvent(c: Config, s: System, channels: seq<Channel>)
    requires Solvent(c, s)
    ensures Solvent(c, s.(procs := s.procs + [Listing(channels)]))
  {
    SumAppend(s.procs, Credit(c), Listing(channels));
  }

  lemma CallAccounting(c: Config, s: System, channels: seq<Channel>)
    requires Accounting(c, s) && Roles(c, s)
    ensures var s' := s.(procs := s.procs + [Listing(channels)]); Accounting(c, s') && Roles(c, s')
  {}

  lemma CallKeepsInv(c: Config, s: System, channels: seq<Channel>)
    requires Inv(c, s)
    ensures Inv(c, s.(procs := s.procs + [Listing(channels)]))
  {
    CallTokens(s, channels);
    CallSolvent(c, s, channels);
    CallAccounting(c, s, channels);
  }

  lemma {:induction false} IdlePool(c: Config, n: nat)
    ensures Bag(seq(n, _ => Idle), Held) == multiset{} && Sum(seq(n, _ => Idle), Credit(c)) == 0
  {
    if n == 0 {
    } else {
      assert seq(n, _ => Idle)[..n - 1] == seq(n - 1, _ => Idle);
      IdlePool(c, n - 1);
    }
  }

  /** The invariant holds in every reachable state. */
  lemma {:induction false} Reachable(c: Config, steps: seq<Step>)
    requires c.Valid() && Execute(c, Start(c), steps).Some?
    ensures Inv(c, Execute(c, Start(c), steps).value)
  {
    if steps == [] {
      IdlePool(c, c.workers);
      assert Tokens(Start(c)) == multiset(Live(Start(c).sh.past));
    } else {
      var n := |steps| - 1;
      Reachable(c, steps[..n]);
      StepKeepsInv(c, Execute(c, Start(c), steps[..n]).value, steps[n]);
    }
  }
}
