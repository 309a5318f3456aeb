/** The queue's rows told against the steps of the run alone: which channel asked for a delivery, how
  * often it was sent and what the last send answered. */
module QueueLedger {
  import opened Options
  import opened NotificationQueue
  import opened QueueInvariant
  import opened QueueGuarantees
  import opened QueueRefusals

  // ---------- Sends ----------

  /** The step sends the delivery. */
  ghost predicate Sends(s: System, step: Step, id: Id) {
    step.Proc? && step.i < |s.procs| && s.procs[step.i].Sending? && s.procs[step.i].job.id == id
  }

  ghost predicate SendsAt(c: Config, steps: seq<Step>, n: nat, id: Id)
    requires c.Valid()
  {
    n < |steps| && Execute(c, Start(c), steps[..n]).Some? && Sends(Execute(c, Start(c), steps[..n]).value, steps[n], id)
  }

  /** How many steps of the run send the delivery. */
  ghost function SendsMade(c: Config, steps: seq<Step>, id: Id): nat
    requires c.Valid()
  {
    if steps == [] then 0
    else SendsMade(c, steps[..|steps| - 1], id) + if SendsAt(c, steps, |steps| - 1, id) then 1 else 0
  }

  /** What the last of them was answered. */
  ghost function LastReply(c: Config, steps: seq<Step>, id: Id): Option<Reply>
    requires c.Valid()
  {
    if steps == [] then None
    else if SendsAt(c, steps, |steps| - 1, id) then
      match steps[|steps| - 1].ch
      case SendOk(response) => Some(Reply(response, ""))
      case SendError(response, error) => Some(Reply(response, error))
      case _ => None
    else LastReply(c, steps[..|steps| - 1], id)
  }

  function SentSoFar(past: Past, id: Id): nat {
    if id in past.sends then past.sends[id] else 0
  }

  function Answered(past: Past, id: Id): Option<Reply> {
    if id in past.last then Some(past.last[id]) else None
  }

  lemma AdvanceSends(c: Config, sh: Shared, g: Goroutine, ch: Choice, id: Id)
    requires Advance(c, sh, g, ch).Moved?
    ensures var past' := Advance(c, sh, g, ch).sh.past;
            if g.Sending? && g.job.id == id then
              && SentSoFar(past', id) == SentSoFar(sh.past, id) + 1
              && (ch.SendOk? ==> Answered(past', id) == Some(Reply(ch.response, "")))
              && (ch.SendError? ==> Answered(past', id) == Some(Reply(ch.response, ch.error)))
              && (ch.SendOk? || ch.SendError?)
            else
              SentSoFar(past', id) == SentSoFar(sh.past, id) && Answered(past', id) == Answered(sh.past, id)
  {}

  lemma {:induction false} SendsCounted(c: Config, steps: seq<Step>, id: Id)
    requires c.Valid() && Execute(c, Start(c), steps).Some?
    ensures var past := Execute(c, Start(c), steps).value.sh.past;
            SentSoFar(past, id) == SendsMade(c, steps, id) && Answered(past, id) == LastReply(c, steps, id)
  {
    if steps == [] {
    } else {
      var n := |steps| - 1;
      SendsCounted(c, steps[..n], id);
      StepSends(c, Execute(c, Start(c), steps[..n]).value, steps[n], id);
    }
  }

  lemma StepSends(c: Config, s: System, step: Step, id: Id)
    requires Do(c, s, step).Some?
    ensures var past' := Do(c, s, step).value.sh.past;
            if Sends(s, step, id) then
              && SentSoFar(past', id) == SentSoFar(s.sh.past, id) + 1
              && (step.ch.SendOk? ==> Answered(past', id) == Some(Reply(step.ch.response, "")))
              && (step.ch.SendError? ==> Answered(past', id) == Some(Reply(step.ch.response, step.ch.error)))
              && (step.ch.SendOk? || step.ch.SendError?)
            else
              SentSoFar(past', id) == SentSoFar(s.sh.past, id) && Answered(past', id) == Answered(s.sh.past, id)
  {
    if step.Proc? {
      AdvanceSends(c, s.sh, s.procs[step.i], step.ch, id);
    }
  }

  /** Over every run, a final row tells of the steps that sent its delivery: their number, one more exactly
    * when some retry found the channel full, and what the last one was answered, or "queue full" when
    * there was none. */
  lemma FinalRowTellsTheSends(c: Config, steps: seq<Step>, id: Id)
    requires c.Valid() && Execute(c, Start(c), steps).Some?
    requires var s := Execute(c, Start(c), steps).value; id in s.sh.rows && s.sh.rows[id].status != Pending
    ensures var row := Execute(c, Start(c), steps).value.sh.rows[id];
            && row.attempts == SendsMade(c, steps, id) + (if exists n: nat :: RefusedAt(c, steps, n, id) then 1 else 0)
            && SendsMade(c, steps, id) <= c.maxRetries
            && (match LastReply(c, steps, id)
                case Some(reply) => row.response == reply.response && row.error == reply.error
                case None => SendsMade(c, steps, id) == 0 && row.response == 0 && row.error == "queue full")
  {
    RecordedAttempts(c, steps, id);
    OverCountedIff(c, steps, id);
    SendsCounted(c, steps, id);
    NoReplyUnsent(c, steps, id);
  }

  lemma {:induction false} NoReplyUnsent(c: Config, steps: seq<Step>, id: Id)
    requires c.Valid() && Execute(c, Start(c), steps).Some?
    ensures LastReply(c, steps, id) == None <==> SendsMade(c, steps, id) == 0
  {
    if steps == [] {
    } else {
      var n := |steps| - 1;
      NoReplyUnsent(c, steps[..n], id);
      StepSends(c, Execute(c, Start(c), steps[..n]).value, steps[n], id);
    }
  }

  /** The step sends some delivery. */
  ghost function AllSends(c: Config, steps: seq<Step>): nat
    requires c.Valid()
  {
    if steps == [] then 0
    else
      var n := |steps| - 1;
      AllSends(c, steps[..n])
      + if Execute(c, Start(c), steps[..n]).Some? && IsSendStep(Execute(c, Start(c), steps[..n]).value, steps[n]) then 1 else 0
  }

  ghost predicate IsSendStep(s: System, step: Step) {
    step.Proc? && step.i < |s.procs| && s.procs[step.i].Sending?
  }

  lemma AdvanceTotal(c: Config, sh: Shared, g: Goroutine, ch: Choice)
    requires Advance(c, sh, g, ch).Moved?
    ensures Advance(c, sh, g, ch).sh.past.total == sh.past.total + if g.Sending? then 1 else 0
  {}

  /** All sends together are at most maxRetries for each delivery ever created. */
  lemma {:induction false} TotalCounted(c: Config, steps: seq<Step>)
    requires c.Valid() && Execute(c, Start(c), steps).Some?
    ensures Execute(c, Start(c), steps).value.sh.past.total == AllSends(c, steps)
  {
    if steps == [] {
    } else {
      var n := |steps| - 1;
      TotalCounted(c, steps[..n]);
      var mid := Execute(c, Start(c), steps[..n]).value;
      if steps[n].Proc? {
        AdvanceTotal(c, mid.sh, mid.procs[steps[n].i], steps[n].ch);
      }
    }
  }

  lemma SendsBounded(c: Config, steps: seq<Step>)
    requires c.Valid() && Execute(c, Start(c), steps).Some?
    ensures AllSends(c, steps) <= c.maxRetries * |Execute(c, Start(c), steps).value.sh.past.sends|
  {
    TotalCounted(c, steps);
    WorkBounds(c, steps, "");
  }

  /** A new delivery goes on the channel exactly when there is room, and is refused otherwise. */
  lemma OfferIff(c: Config, s: System, i: nat)
    requires i < |s.procs| && s.procs[i].Offering?
    ensures var m := Advance(c, s.sh, s.procs[i], Go);
            var job := s.procs[i].job;
            && m.Moved?
            && (m.g.Refusing? <==> |s.sh.jobs| >= c.capacity)
            && (m.g.Refusing? ==> m.sh == s.sh && m.g.update == Update(job.id, Failed, 0, 0, "queue full", FirstFull))
            && (!m.g.Refusing? ==> m.g == Listing(s.procs[i].todo) && m.sh == s.sh.(jobs := s.sh.jobs + [job]))
  {}

  /** Removing rows with their channel or alert takes exactly those, and no job. */
  lemma CascadeLaw(c: Config, s: System, ids: set<Id>)
    ensures Do(c, s, Cascade(ids)).Some?
    ensures var s' := Do(c, s, Cascade(ids)).value;
            && s'.procs == s.procs && s'.sh.jobs == s.sh.jobs && s'.sh.past == s.sh.past
            && (forall id :: id in s'.sh.rows <==> id in s.sh.rows && id !in ids)
            && (forall id :: id in s'.sh.rows ==> s'.sh.rows[id] == s.sh.rows[id])
  {}

  // ---------- Channels ----------

  /** Some Enqueue call of the run listed the channel. */
  ghost predicate Listed(steps: seq<Step>, channel: Channel) {
    exists n :: 0 <= n < |steps| && steps[n].Call? && channel in steps[n].channels
  }

  function JobOf(g: Goroutine): Option<Job> {
    match g
    case Sending(job) => Some(job)
    case Sleeping(job, _, _) => Some(job)
    case Requeueing(job, _, _) => Some(job)
    case Offering(job, _) => Some(job)
    case _ => None
  }

  function Todo(g: Goroutine): seq<Channel> {
    match g
    case Listing(todo) => todo
    case Offering(_, todo) => todo
    case Refusing(_, todo) => todo
    case _ => []
  }

  /** The job is for an enabled channel that a call listed, and its row says so. */
  ghost predicate ForChannel(steps: seq<Step>, rows: map<Id, Row>, job: Job) {
    && job.channel.enabled && Listed(steps, job.channel)
    && (job.id in rows ==> rows[job.id].channel == job.channel.id)
  }

  ghost predicate RowFor(steps: seq<Step>, row: Row) {
    exists channel: Channel :: channel.enabled && Listed(steps, channel) && row.channel == channel.id
  }

  ghost predicate ChannelsOk(steps: seq<Step>, s: System) {
    && (forall q :: 0 <= q < |s.sh.jobs| ==> ForChannel(steps, s.sh.rows, s.sh.jobs[q]))
    && (forall i :: 0 <= i < |s.procs| && JobOf(s.procs[i]).Some? ==> ForChannel(steps, s.sh.rows, JobOf(s.procs[i]).value))
    && (forall i, channel :: 0 <= i < |s.procs| && channel in Todo(s.procs[i]) ==> Listed(steps, channel))
    && (forall id :: id in s.sh.rows ==> RowFor(steps, s.sh.rows[id]))
  }

  /** Rows keep their channel; a new one has that of the channel listed. */
  lemma AdvanceRowChannel(c: Config, sh: Shared, g: Goroutine, ch: Choice, id: Id)
    requires Advance(c, sh, g, ch).Moved? && id in Advance(c, sh, g, ch).sh.rows
    ensures var row := Advance(c, sh, g, ch).sh.rows[id];
            if Fresh(g, ch) == Some(id) then g.todo != [] && g.todo[0].enabled && row.channel == g.todo[0].id
            else id in sh.rows && row.channel == sh.rows[id].channel
  {}

  /** A goroutine's job is the front job, its own, or one for the channel it has just created a row for. */
  lemma AdvanceJob(c: Config, sh: Shared, g: Goroutine, ch: Choice)
    requires Advance(c, sh, g, ch).Moved? && JobOf(Advance(c, sh, g, ch).g).Some?
    ensures var job := JobOf(Advance(c, sh, g, ch).g).value;
            || (g.Idle? && sh.jobs != [] && job == sh.jobs[0])
            || (JobOf(g).Some? && job.id == JobOf(g).value.id && job.channel == JobOf(g).value.channel)
            || (Fresh(g, ch) == Some(job.id) && g.todo != [] && job.channel == g.todo[0] && g.todo[0].enabled)
  {}

  lemma AdvanceTodo(c: Config, sh: Shared, g: Goroutine, ch: Choice, channel: Channel)
    requires Advance(c, sh, g, ch).Moved? && channel in Todo(Advance(c, sh, g, ch).g)
    ensures channel in Todo(g)
  {}

  lemma AdvanceQueued(c: Config, sh: Shared, g: Goroutine, ch: Choice, q: nat)
    requires Advance(c, sh, g, ch).Moved? && q < |Advance(c, sh, g, ch).sh.jobs|
    ensures var job := Advance(c, sh, g, ch).sh.jobs[q]; job in sh.jobs || JobOf(g) == Some(job)
  {}

  lemma ListedLater(steps: seq<Step>, channel: Channel)
    requires steps != [] && Listed(steps[..|steps| - 1], channel)
    ensures Listed(steps, channel)
  {
    var n :| 0 <= n < |steps| - 1 && steps[..|steps| - 1][n].Call? && channel in steps[..|steps| - 1][n].channels;
    assert steps[n].Call? && channel in steps[n].channels;
  }

  /** A job that existed before a step is still for its channel. */
  lemma StillForChannel(c: Config, steps: seq<Step>, s: System, i: nat, ch: Choice, job: Job)
    requires steps != [] && ForChannel(steps[..|steps| - 1], s.sh.rows, job) && job.id in s.sh.past.sends
    requires i < |s.procs| && Advance(c, s.sh, s.procs[i], ch).Moved?
    ensures ForChannel(steps, Advance(c, s.sh, s.procs[i], ch).sh.rows, job)
  {
    ListedLater(steps, job.channel);
    AdvanceKeys(c, s.sh, s.procs[i], ch);
    if job.id in Advance(c, s.sh, s.procs[i], ch).sh.rows {
      AdvanceRowChannel(c, s.sh, s.procs[i], ch, job.id);
    }
  }

  lemma JobsAreSent(c: Config, s: System)
    requires Inv(c, s)
    ensures forall q :: 0 <= q < |s.sh.jobs| ==> s.sh.jobs[q].id in s.sh.past.sends
    ensures forall i :: 0 <= i < |s.procs| && JobOf(s.procs[i]).Some? ==> JobOf(s.procs[i]).value.id in s.sh.past.sends
  {
    forall q | 0 <= q < |s.sh.jobs| ensures s.sh.jobs[q].id in s.sh.past.sends {
      assert JobOk(c, s.sh.past, s.sh.jobs[q]);
    }
    forall i | 0 <= i < |s.procs| && JobOf(s.procs[i]).Some? ensures JobOf(s.procs[i]).value.id in s.sh.past.sends {
      assert HolderOk(c, s.sh.past, s.procs[i]);
    }
  }

  /** The acting goroutine's own job after the step. */
  lemma OwnJobForChannel(c: Config, steps: seq<Step>, s: System, i: nat, ch: Choice)
    requires steps != [] && Inv(c, s) && ChannelsOk(steps[..|steps| - 1], s)
    requires i < |s.procs| && Advance(c, s.sh, s.procs[i], ch).Moved? && JobOf(Advance(c, s.sh, s.procs[i], ch).g).Some?
    ensures var m := Advance(c, s.sh, s.procs[i], ch); ForChannel(steps, m.sh.rows, JobOf(m.g).value)
  {
    var g := s.procs[i];
    var m := Advance(c, s.sh, g, ch);
    var job := JobOf(m.g).value;
    JobsAreSent(c, s);
    AdvanceJob(c, s.sh, g, ch);
    if g.Idle? {
      StillForChannel(c, steps, s, i, ch, s.sh.jobs[0]);
    } else if JobOf(g).Some? {
      StillForChannel(c, steps, s, i, ch, JobOf(g).value);
    } else {
      assert g.todo[0] in Todo(g);
      ListedLater(steps, g.todo[0]);
      if job.id in m.sh.rows {
        AdvanceRowChannel(c, s.sh, g, ch, job.id);
      }
    }
  }

  lemma RowForLater(c: Config, steps: seq<Step>, s: System, i: nat, ch: Choice, id: Id)
    requires steps != [] && ChannelsOk(steps[..|steps| - 1], s)
    requires i < |s.procs| && Advance(c, s.sh, s.procs[i], ch).Moved? && id in Advance(c, s.sh, s.procs[i], ch).sh.rows
    ensures RowFor(steps, Advance(c, s.sh, s.procs[i], ch).sh.rows[id])
  {
    var g := s.procs[i];
    AdvanceRowChannel(c, s.sh, g, ch, id);
    if Fresh(g, ch) == Some(id) {
      assert g.todo[0] in Todo(g);
      ListedLater(steps, g.todo[0]);
    } else {
      assert RowFor(steps[..|steps| - 1], s.sh.rows[id]);
      var channel: Channel :| channel.enabled && Listed(steps[..|steps| - 1], channel) && s.sh.rows[id].channel == channel.id;
      ListedLater(steps, channel);
    }
  }

  lemma ProcChannels(c: Config, steps: seq<Step>, s: System, i: nat, ch: Choice)
    requires steps != [] && Inv(c, s) && ChannelsOk(steps[..|steps| - 1], s)
    requires i < |s.procs| && Advance(c, s.sh, s.procs[i], ch).Moved?
    ensures var m := Advance(c, s.sh, s.procs[i], ch); ChannelsOk(steps, System(m.sh, s.procs[i := m.g]))
  {
    var m := Advance(c, s.sh, s.procs[i], ch);
    var procs' := s.procs[i := m.g];
    JobsAreSent(c, s);
    forall q | 0 <= q < |m.sh.jobs| ensures ForChannel(steps, m.sh.rows, m.sh.jobs[q]) {
      AdvanceQueued(c, s.sh, s.procs[i], ch, q);
      StillForChannel(c, steps, s, i, ch, m.sh.jobs[q]);
    }
    forall j | 0 <= j < |procs'| && JobOf(procs'[j]).Some? ensures ForChannel(steps, m.sh.rows, JobOf(procs'[j]).value) {
      if j == i {
        OwnJobForChannel(c, steps, s, i, ch);
      } else {
        StillForChannel(c, steps, s, i, ch, JobOf(s.procs[j]).value);
      }
    }
    forall j, channel | 0 <= j < |procs'| && channel in Todo(procs'[j]) ensures Listed(steps, channel) {
      if j == i {
        AdvanceTodo(c, s.sh, s.procs[i], ch, channel);
      }
      assert channel in Todo(s.procs[j]);
      ListedLater(steps, channel);
    }
    forall id | id in m.sh.rows ensures RowFor(steps, m.sh.rows[id]) {
      RowForLater(c, steps, s, i, ch, id);
    }
  }

  lemma ForChannelLater(steps: seq<Step>, rows: map<Id, Row>, rows': map<Id, Row>, job: Job)
    requires steps != [] && ForChannel(steps[..|steps| - 1], rows, job)
    requires forall id :: id in rows' ==> id in rows && rows'[id] == rows[id]
    ensures ForChannel(steps, rows', job)
  {
    ListedLater(steps, job.channel);
  }

  lemma OtherChannels(c: Config, steps: seq<Step>, s: System)
    requires steps != [] && ChannelsOk(steps[..|steps| - 1], s)
    requires !steps[|steps| - 1].Proc? && Do(c, s, steps[|steps| - 1]).Some?
    ensures ChannelsOk(steps, Do(c, s, steps[|steps| - 1]).value)
  {
    var step := steps[|steps| - 1];
    var s' := Do(c, s, step).value;
    forall q | 0 <= q < |s'.sh.jobs| ensures ForChannel(steps, s'.sh.rows, s'.sh.jobs[q]) {
      ForChannelLater(steps, s.sh.rows, s'.sh.rows, s.sh.jobs[q]);
    }
    forall j | 0 <= j < |s'.procs| && JobOf(s'.procs[j]).Some? ensures ForChannel(steps, s'.sh.rows, JobOf(s'.procs[j]).value) {
      ForChannelLater(steps, s.sh.rows, s'.sh.rows, JobOf(s.procs[j]).value);
    }
    forall j, channel | 0 <= j < |s'.procs| && channel in Todo(s'.procs[j]) ensures Listed(steps, channel) {
      if j < |s.procs| {
        assert channel in Todo(s.procs[j]);
        ListedLater(steps, channel);
      } else {
        assert steps[|steps| - 1].Call? && channel in steps[|steps| - 1].channels;
      }
    }
    forall id | id in s'.sh.rows ensures RowFor(steps, s'.sh.rows[id]) {
      assert RowFor(steps[..|steps| - 1], s.sh.rows[id]);
      var channel: Channel :| channel.enabled && Listed(steps[..|steps| - 1], channel) && s.sh.rows[id].channel == channel.id;
      ListedLater(steps, channel);
    }
  }

  lemma {:induction false} ChannelsRun(c: Config, steps: seq<Step>)
    requires c.Valid() && Execute(c, Start(c), steps).Some?
    ensures ChannelsOk(steps, Execute(c, Start(c), steps).value)
  {
    if steps == [] {
    } else {
      var n := |steps| - 1;
      var mid := Execute(c, Start(c), steps[..n]).value;
      ChannelsRun(c, steps[..n]);
      Reachable(c, steps[..n]);
      if steps[n].Proc? {
        ProcChannels(c, steps, mid, steps[n].i, steps[n].ch);
      } else {
        OtherChannels(c, steps, mid);
      }
    }
  }

  /** Over every run: whatever is queued, about to be sent, or waiting for its retry goes to an enabled
    * channel that some Enqueue call listed, and the delivery's row names that channel; every row names
    * such a channel. */
  lemma DeliveriesMatchChannels(c: Config, steps: seq<Step>, q: nat, i: nat, id: Id)
    requires c.Valid() && Execute(c, Start(c), steps).Some?
    ensures var s := Execute(c, Start(c), steps).value;
            && (q < |s.sh.jobs| ==> ForChannel(steps, s.sh.rows, s.sh.jobs[q]))
            && (i < |s.procs| && JobOf(s.procs[i]).Some? ==> ForChannel(steps, s.sh.rows, JobOf(s.procs[i]).value))
            && (id in s.sh.rows ==>
                  exists channel: Channel :: channel.enabled && Listed(steps, channel) && s.sh.rows[id].channel == channel.id)
  {
    ChannelsRun(c, steps);
    var s := Execute(c, Start(c), steps).value;
    if id in s.sh.rows {
      assert RowFor(steps, s.sh.rows[id]);
    }
  }
}
