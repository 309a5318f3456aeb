/** The queue in the source's own control flow. Each method is one goroutine running undisturbed,
  * and is proved to be a run of the atomic actions that QueueInvariant interleaves. */
module QueueCode {
  import opened Options
  import opened Traces
  import opened NotificationQueue
  import opened QueueInvariant
  import opened QueueGuarantees
  import opened QueueRefusals

  function Then(c: Config, o: Outcome, ch: Choice): Outcome {
    match o
    case Blocked => Blocked
    case Moved(sh, g) => Advance(c, sh, g, ch)
  }

  function Stepper(c: Config): (Outcome, Choice) -> Outcome {
    (o: Outcome, ch: Choice) => Then(c, o, ch)
  }

  /** One goroutine acting alone, answered by `trace`. */
  function Solo(c: Config, sh: Shared, g: Goroutine, trace: seq<Choice>): Outcome {
    Fold(Stepper(c), Moved(sh, g), trace)
  }

  lemma SoloStep(c: Config, sh: Shared, g: Goroutine, trace: seq<Choice>, ch: Choice)
    ensures Solo(c, sh, g, trace + [ch]) == Then(c, Solo(c, sh, g, trace), ch)
  {
    FoldSnoc(Stepper(c), Moved(sh, g), trace, ch);
  }

  lemma SoloConcat(c: Config, sh: Shared, g: Goroutine, first: seq<Choice>, second: seq<Choice>)
    requires Solo(c, sh, g, first).Moved?
    ensures var m := Solo(c, sh, g, first); Solo(c, sh, g, first + second) == Solo(c, m.sh, m.g, second)
  {
    FoldConcat(Stepper(c), Moved(sh, g), first, second);
  }

  function Steps(i: nat, trace: seq<Choice>): seq<Step> {
    seq(|trace|, k requires 0 <= k < |trace| => Proc(i, trace[k]))
  }

  /** What a method does alone, the same goroutine does inside the system. */
  lemma {:induction false} SoloIsARun(c: Config, s: System, i: nat, trace: seq<Choice>)
    requires i < |s.procs| && Solo(c, s.sh, s.procs[i], trace).Moved?
    ensures var m := Solo(c, s.sh, s.procs[i], trace);
            Execute(c, s, Steps(i, trace)) == Some(System(m.sh, s.procs[i := m.g]))
    ensures NoNewCalls(Steps(i, trace)) && Actions(Steps(i, trace)) == |trace|
  {
    if trace == [] {
      assert s.procs[i := s.procs[i]] == s.procs;
    } else {
      var n := |trace| - 1;
      SoloIsARun(c, s, i, trace[..n]);
      assert Steps(i, trace)[..n] == Steps(i, trace[..n]);
      var m := Solo(c, s.sh, s.procs[i], trace[..n]);
      var mid := System(m.sh, s.procs[i := m.g]);
      var last := Advance(c, m.sh, m.g, trace[n]);
      assert Do(c, mid, Proc(i, trace[n])) == Some(System(last.sh, mid.procs[i := last.g]));
      assert mid.procs[i := last.g] == s.procs[i := last.g];
    }
  }

  /** A whole Enqueue call is a run that begins with the call. */
  lemma EnqueueIsARun(c: Config, s: System, channels: seq<Channel>, trace: seq<Choice>)
    requires Solo(c, s.sh, Listing(channels), trace).Moved?
    ensures var m := Solo(c, s.sh, Listing(channels), trace);
            Execute(c, s, [Call(channels)] + Steps(|s.procs|, trace)) == Some(System(m.sh, s.procs + [m.g]))
  {
    var called := System(s.sh, s.procs + [Listing(channels)]);
    assert [Call(channels)][..0] == [];
    assert Execute(c, s, [Call(channels)]) == Some(called);
    SoloIsARun(c, called, |s.procs|, trace);
    ExecuteConcat(c, s, [Call(channels)], Steps(|s.procs|, trace));
    var m := Solo(c, s.sh, Listing(channels), trace);
    assert called.procs[|s.procs| := m.g] == s.procs + [m.g];
  }

  /** The environment's answers to one round of the loop in Enqueue. */
  datatype Answer = Answer(created: Choice, update: Choice) {
    ghost predicate Proper() {
      (created.Created? || created.CreateError?) && IsUpdate(update)
    }
  }

  predicate IsSend(ch: Choice) {
    ch.SendOk? || ch.SendError?
  }

  function ReplyOf(send: Choice): Reply
    requires IsSend(send)
  {
    Reply(send.response, if send.SendOk? then "" else send.error)
  }

  predicate IsUpdate(ch: Choice) {
    ch.Updated? || ch.UpdateError?
  }

  // ---------- The paths through processJob ----------

  /** The send succeeds, or it was the last permitted one. */
  lemma OneSendTrace(c: Config, sh: Shared, job: Job, send: Choice, update: Choice)
    requires IsSend(send) && IsUpdate(update) && job.id in sh.past.sends
    requires send.SendOk? || job.attempt >= c.maxRetries
    ensures var u := if send.SendOk? then Update(job.id, Delivered, job.attempt, send.response, "", Sent)
                     else Update(job.id, Failed, job.attempt, send.response, send.error, Exhausted);
            Solo(c, sh, Sending(job), [send, update]) == Moved(Finish(CountSend(sh, job.id, ReplyOf(send)), u, update), Idle)
  {
    SoloStep(c, sh, Sending(job), [], send);
    SoloStep(c, sh, Sending(job), [send], update);
    assert [] + [send] == [send] && [send] + [update] == [send, update];
  }

  lemma SleepStep(c: Config, sh: Shared, job: Job, response: int, error: string)
    requires job.id in sh.past.slept
    ensures Advance(c, sh, Sleeping(job, response, error), Go)
            == Moved(CountSleep(sh, job.id, job.attempt), Requeueing(job.(attempt := job.attempt + 1), response, error))
  {}

  /** The send fails, and the worker sleeps before it retries. */
  lemma RetryTrace(c: Config, sh: Shared, job: Job, send: Choice)
    requires send.SendError? && job.id in sh.past.sends && job.id in sh.past.slept && job.attempt < c.maxRetries
    ensures Solo(c, sh, Sending(job), [send, Go])
            == Moved(CountSleep(CountSend(sh, job.id, ReplyOf(send)), job.id, job.attempt),
                     Requeueing(job.(attempt := job.attempt + 1), send.response, send.error))
  {
    var sent := CountSend(sh, job.id, ReplyOf(send));
    assert Solo(c, sh, Sending(job), [send]) == Moved(sent, Sleeping(job, send.response, send.error)) by {
      SoloStep(c, sh, Sending(job), [], send);
      assert [] + [send] == [send];
    }
    SleepStep(c, sent, job, send.response, send.error);
    SoloStep(c, sh, Sending(job), [send], Go);
    assert [send] + [Go] == [send, Go];
  }

  /** The channel is full when the job is put back. */
  lemma RefusedTrace(c: Config, sh: Shared, job: Job, response: int, error: string, update: Choice)
    requires |sh.jobs| >= c.capacity && IsUpdate(update)
    ensures var u := Update(job.id, Failed, job.attempt, response, error, RequeueFull);
            Solo(c, sh, Requeueing(job, response, error), [Go, update]) == Moved(Finish(sh, u, update), Idle)
  {
    SoloStep(c, sh, Requeueing(job, response, error), [], Go);
    SoloStep(c, sh, Requeueing(job, response, error), [Go], update);
    assert [] + [Go] == [Go] && [Go] + [update] == [Go, update];
  }

  /** The first action of a round of Enqueue. */
  lemma RoundTrace(c: Config, sh: Shared, todo: seq<Channel>, created: Choice)
    requires todo != []
    ensures Solo(c, sh, Listing(todo), [Go]) == Advance(c, sh, Listing(todo), Go)
    ensures Solo(c, sh, Listing(todo), [created]) == Advance(c, sh, Listing(todo), created)
  {
    FoldOne(Stepper(c), Moved(sh, Listing(todo)), Go);
    FoldOne(Stepper(c), Moved(sh, Listing(todo)), created);
  }

  class Queue {
    const config: Config
    var jobs: seq<Job>
    var rows: map<Id, Row>
    ghost var past: Past

    ghost function State(): Shared
      reads this
    {
      Shared(jobs, rows, past)
    }

    constructor (workerCount: int, queueSize: int, maxRetries: int)
      ensures config == Normalised(workerCount, queueSize, maxRetries)
      ensures State() == Start(config).sh
    {
      config := Normalised(workerCount, queueSize, maxRetries);
      jobs, rows := [], map[];
      past := Past(map[], map[], map[], map[], {}, 0);
    }

    /** The non-blocking send on the buffered channel. */
    method TrySend(job: Job) returns (sent: bool)
      modifies this`jobs
      ensures sent == (|old(jobs)| < config.capacity)
      ensures jobs == if sent then old(jobs) + [job] else old(jobs)
    {
      sent := |jobs| < config.capacity;
      if sent {
        jobs := jobs + [job];
      }
    }

    /** Writes the row; `answer` says whether the database accepted the write. Only the delivery's own
      * row can change: not its channel, and not sent_at unless it was delivered. A missing row stays
      * missing, and a refused write changes no row. */
    method UpdateDelivery(u: Update, answer: Choice)
      requires IsUpdate(answer)
      modifies this`rows, this`past
      ensures rows.Keys == old(rows).Keys
      ensures forall id :: id in rows && (id != u.id || answer.UpdateError?) ==> rows[id] == old(rows)[id]
      ensures u.id in rows && answer.Updated? ==>
                var row, was := rows[u.id], old(rows)[u.id];
                && row.status == u.status && row.attempts == u.attempts && row.response == u.response && row.error == u.error
                && row.channel == was.channel && row.sentAt == (if u.status == Delivered then Some(answer.now) else was.sentAt)
      ensures u.id in past.ended && past.ended[u.id] == u.cause
      ensures past.lost == old(past).lost + if answer.UpdateError? then {u.id} else {}
      ensures State() == Finish(old(State()), u, answer)
    {
      if answer.Updated? {
        if u.id in rows {
          var row := rows[u.id].(status := u.status, attempts := u.attempts, response := u.response, error := u.error);
          if u.status == Delivered {
            row := row.(sentAt := Some(answer.now));
          }
          rows := rows[u.id := row];
        }
        past := past.(ended := past.ended[u.id := u.cause]);
      } else {
        past := past.(ended := past.ended[u.id := u.cause], lost := past.lost + {u.id});
      }
    }

    /** Putting a job back after its backoff. */
    method PutBack(job: Job, response: int, error: string, update: Choice) returns (ghost trace: seq<Choice>)
      requires IsUpdate(update)
      modifies this`jobs, this`rows, this`past
      ensures Solo(config, old(State()), Requeueing(job, response, error), trace) == Moved(State(), Idle)
    {
      ghost var before := State();
      var sent := TrySend(job);
      if sent {
        SoloStep(config, before, Requeueing(job, response, error), [], Go);
        return [] + [Go];
      }
      UpdateDelivery(Update(job.id, Failed, job.attempt, response, error, RequeueFull), update);
      RefusedTrace(config, before, job, response, error, update);
      trace := [Go, update];
    }

    method ProcessJob(job: Job, send: Choice, update: Choice) returns (ghost trace: seq<Choice>)
      requires IsSend(send) && IsUpdate(update)
      requires job.id in past.sends && job.id in past.slept
      modifies this`jobs, this`rows, this`past
      ensures Solo(config, old(State()), Sending(job), trace) == Moved(State(), Idle)
    {
      ghost var before := State();
      past := CountSend(before, job.id, ReplyOf(send)).past;
      if send.SendOk? {
        UpdateDelivery(Update(job.id, Delivered, job.attempt, send.response, "", Sent), update);
        OneSendTrace(config, before, job, send, update);
        return [send, update];
      }
      if job.attempt < config.maxRetries {
        past := CountSleep(State(), job.id, job.attempt).past;
        RetryTrace(config, before, job, send);
        ghost var rest := PutBack(job.(attempt := job.attempt + 1), send.response, send.error, update);
        SoloConcat(config, before, Sending(job), [send, Go], rest);
        trace := [send, Go] + rest;
      } else {
        UpdateDelivery(Update(job.id, Failed, job.attempt, send.response, send.error, Exhausted), update);
        OneSendTrace(config, before, job, send, update);
        trace := [send, update];
      }
    }

    /** Offering a new job to the channel. */
    method OfferFirst(job: Job, update: Choice, ghost todo: seq<Channel>) returns (ghost trace: seq<Choice>)
      requires IsUpdate(update)
      modifies this`jobs, this`rows, this`past
      ensures Solo(config, old(State()), Offering(job, todo), trace) == Moved(State(), Listing(todo))
      ensures past.sends == old(past).sends
      ensures rows.Keys == old(rows).Keys && forall id :: id in rows ==> rows[id].channel == old(rows)[id].channel
    {
      ghost var before := State();
      SoloStep(config, before, Offering(job, todo), [], Go);
      var sent := TrySend(job);
      trace := [] + [Go];
      if !sent {
        UpdateDelivery(Update(job.id, Failed, 0, 0, "queue full", FirstFull), update);
        SoloStep(config, before, Offering(job, todo), trace, update);
        trace := trace + [update];
      }
    }

    /** One round of the loop in Enqueue, `todo` being the channels still to go. */
    method EnqueueOne(channel: Channel, answer: Answer, ghost todo: seq<Channel>) returns (ghost trace: seq<Choice>)
      requires todo != [] && todo[0] == channel && answer.Proper()
      requires answer.created.Created? ==> answer.created.id !in past.sends
      modifies this`jobs, this`rows, this`past
      ensures Solo(config, old(State()), Listing(todo), trace) == Moved(State(), Listing(todo[1..]))
      ensures past.sends.Keys == old(past).sends.Keys
              + if channel.enabled && answer.created.Created? then {answer.created.id} else {}
      ensures channel.enabled && answer.created.Created? ==>
                && answer.created.id in rows && rows[answer.created.id].channel == channel.id
                && rows.Keys == old(rows).Keys + {answer.created.id}
      ensures !(channel.enabled && answer.created.Created?) ==> rows == old(rows)
      ensures forall id :: id in old(rows) && id in old(past).sends ==> id in rows && rows[id].channel == old(rows)[id].channel
    {
      ghost var before := State();
      var created := answer.created;
      RoundTrace(config, before, todo, created);
      if !channel.enabled {
        return [Go];
      }
      if created.CreateError? {
        return [created];
      }
      rows := rows[created.id := Row(channel.id, Pending, 0, 0, "", None)];
      past := past.(sends := past.sends[created.id := 0], slept := past.slept[created.id := 0]);
      ghost var rest := OfferFirst(Job(created.id, channel, 1), answer.update, todo[1..]);
      SoloConcat(config, before, Listing(todo), [created], rest);
      trace := [created] + rest;
    }

    /** The loop over the listed channels, with the answers given round by round. */
    method Enqueue(channels: seq<Channel>, answers: seq<Answer>) returns (ghost trace: seq<Choice>)
      requires |answers| == |channels|
      requires forall k :: 0 <= k < |answers| ==> answers[k].Proper()
      requires forall k :: 0 <= k < |answers| && answers[k].created.Created? ==> answers[k].created.id !in past.sends
      requires forall k, l :: 0 <= k < l < |answers| && answers[k].created.Created? && answers[l].created.Created?
                 ==> answers[k].created.id != answers[l].created.id
      modifies this`jobs, this`rows, this`past
      ensures Solo(config, old(State()), Listing(channels), trace) == Moved(State(), Returned)
      ensures forall k :: 0 <= k < |channels| && channels[k].enabled && answers[k].created.Created? ==>
                answers[k].created.id in rows && rows[answers[k].created.id].channel == channels[k].id
      ensures forall id :: id in rows ==>
                id in old(rows) || exists k :: 0 <= k < |channels| && channels[k].enabled && answers[k].created == Created(id)
    {
      ghost var before := State();
      trace := [];
      assert channels[0..] == channels;
      for i := 0 to |channels|
        invariant Solo(config, before, Listing(channels), trace) == Moved(State(), Listing(channels[i..]))
        invariant forall k :: i <= k < |answers| && answers[k].created.Created? ==> answers[k].created.id !in past.sends
        invariant forall k :: 0 <= k < i && channels[k].enabled && answers[k].created.Created? ==>
                    && answers[k].created.id in past.sends && answers[k].created.id in rows
                    && rows[answers[k].created.id].channel == channels[k].id
        invariant forall id :: id in rows ==>
                    id in old(rows) || exists k :: 0 <= k < i && channels[k].enabled && answers[k].created == Created(id)
      {
        assert channels[i..][1..] == channels[i + 1..];
        ghost var round := EnqueueOne(channels[i], answers[i], channels[i..]);
        SoloConcat(config, before, Listing(channels), trace, round);
        trace := trace + round;
      }
      SoloStep(config, before, Listing(channels), trace, Go);
      trace := trace + [Go];
    }

    /** Taking the front job and processing it, with the other workers idle. */
    method Take(send: Choice, update: Choice, ghost pool: seq<Goroutine>)
      requires IsSend(send) && IsUpdate(update) && jobs != []
      requires Inv(config, System(State(), pool)) && pool[0] == Idle
      modifies this`jobs, this`rows, this`past
      ensures Inv(config, System(State(), pool))
      ensures Measure(config, System(State(), pool)) < old(Measure(config, System(State(), pool)))
      ensures old(past).ended.Keys <= past.ended.Keys
    {
      ghost var s := System(State(), pool);
      var job := jobs[0];
      assert JobOk(config, past, job);
      jobs := jobs[1..];
      ghost var trace := ProcessJob(job, send, update);
      WholeRound(config, s, trace, State());
    }

    /** The pool with its other workers idle: one worker takes jobs, retries included, until the
      * channel is empty, and it gets there whatever the sends and the row writes answer. */
    method Worker(answers: (Job, nat) -> (Choice, Choice), ghost pool: seq<Goroutine>)
      requires forall job, k :: IsSend(answers(job, k).0) && IsUpdate(answers(job, k).1)
      requires Inv(config, System(State(), pool)) && pool[0] == Idle
      modifies this`jobs, this`rows, this`past
      ensures jobs == [] && Inv(config, System(State(), pool))
      ensures old(past).ended.Keys <= past.ended.Keys
    {
      var k := 0;
      while jobs != []
        invariant Inv(config, System(State(), pool))
        invariant old(past).ended.Keys <= past.ended.Keys
        decreases Measure(config, System(State(), pool))
      {
        var answer := answers(jobs[0], k);
        Take(answer.0, answer.1, pool);
        k := k + 1;
      }
    }
  }

  lemma {:induction false} EndedGrows(c: Config, sh: Shared, g: Goroutine, trace: seq<Choice>)
    requires Solo(c, sh, g, trace).Moved?
    ensures sh.past.ended.Keys <= Solo(c, sh, g, trace).sh.past.ended.Keys
  {
    if trace == [] {
    } else {
      var n := |trace| - 1;
      EndedGrows(c, sh, g, trace[..n]);
      var m := Solo(c, sh, g, trace[..n]);
      AdvanceKeys(c, m.sh, m.g, trace[n]);
    }
  }

  /** Taking the front job and processing it is a run of worker 0 that ends with it idle again. */
  lemma WholeRound(c: Config, s: System, trace: seq<Choice>, sh': Shared)
    requires Inv(c, s) && s.procs[0] == Idle && s.sh.jobs != []
    requires Solo(c, s.sh.(jobs := s.sh.jobs[1..]), Sending(s.sh.jobs[0]), trace) == Moved(sh', Idle)
    ensures Inv(c, System(sh', s.procs)) && Measure(c, System(sh', s.procs)) < Measure(c, s)
    ensures s.sh.past.ended.Keys <= sh'.past.ended.Keys
  {
    SoloStep(c, s.sh, Idle, [], Go);
    SoloConcat(c, s.sh, Idle, [Go], trace);
    SoloIsARun(c, s, 0, [Go] + trace);
    assert s.procs[0 := Idle] == s.procs;
    WorkTerminates(c, s, Steps(0, [Go] + trace));
    EndedGrows(c, s.sh, Idle, [Go] + trace);
  }
}
