/** The notification queue of internal/notifications/queue.go and the delivery rows of
  * internal/notifications/repository.go.
  *
  * `Advance` is one atomic action of one goroutine: a channel operation, a row write, a send or the
  * end of a sleep. `Do` interleaves any number of goroutines. The class in QueueCode has the source's
  * own control flow, and its methods are proved to be back-to-back runs of `Advance`. */
module NotificationQueue {
  import opened Options

  type Id = string

  datatype Channel = Channel(id: string, enabled: bool)

  datatype Job = Job(id: Id, channel: Channel, attempt: nat)

  datatype Status = Pending | Delivered | Failed

  datatype Row = Row(channel: string, status: Status, attempts: nat, response: int, error: string, sentAt: Option<int>)

  /** The branch that ended a delivery. */
  datatype Cause = Sent | Exhausted | RequeueFull | FirstFull

  datatype Update = Update(id: Id, status: Status, attempts: nat, response: int, error: string, cause: Cause)

  datatype Config = Config(workers: int, capacity: int, maxRetries: int) {
    ghost predicate Valid() {
      workers > 0 && capacity > 0 && maxRetries > 0
    }
  }

  /** NewQueue's defaults for parameters that are not positive. */
  function Normalised(workers: int, capacity: int, maxRetries: int): (c: Config)
    ensures c.Valid()
    ensures c.workers == workers || (workers <= 0 && c.workers == 4)
    ensures c.capacity == capacity || (capacity <= 0 && c.capacity == 256)
    ensures c.maxRetries == maxRetries || (maxRetries <= 0 && c.maxRetries == 3)
  {
    Config(if workers <= 0 then 4 else workers,
           if capacity <= 0 then 256 else capacity,
           if maxRetries <= 0 then 3 else maxRetries)
  }

  /** How a send ended: the status code and the error, which is empty on success. */
  datatype Reply = Reply(response: int, error: string)

  /** What has happened so far. `sends` has a key for every delivery ever created, `last` holds the
    * reply to its latest send, `ended` a key for every delivery whose last row write was attempted,
    * and `lost` are those where that write failed. */
  datatype Past = Past(sends: map<Id, nat>, slept: map<Id, nat>, last: map<Id, Reply>,
                       ended: map<Id, Cause>, lost: set<Id>, total: nat)

  /** The channel, the delivery table and the record of the past. */
  datatype Shared = Shared(jobs: seq<Job>, rows: map<Id, Row>, past: Past)

  datatype Goroutine =
    // workers
    | Idle
    | Sending(job: Job)
    | Sleeping(job: Job, response: int, error: string)
    | Requeueing(job: Job, response: int, error: string)
    | Recording(update: Update)
    // Enqueue calls
    | Listing(todo: seq<Channel>)
    | Offering(job: Job, todo: seq<Channel>)
    | Refusing(update: Update, todo: seq<Channel>)
    | Returned

  predicate IsWorker(g: Goroutine) {
    g.Idle? || g.Sending? || g.Sleeping? || g.Requeueing? || g.Recording?
  }

  /** What the environment answers to an action. */
  datatype Choice =
    | Go
    | SendOk(response: int)
    | SendError(response: int, error: string)
    | Created(id: Id)
    | CreateError
    | Updated(now: int)
    | UpdateError

  datatype Outcome = Blocked | Moved(sh: Shared, g: Goroutine)

  function CountSend(sh: Shared, id: Id, reply: Reply): Shared
    requires id in sh.past.sends
  {
    sh.(past := sh.past.(sends := sh.past.sends[id := sh.past.sends[id] + 1], last := sh.past.last[id := reply],
                         total := sh.past.total + 1))
  }

  function CountSleep(sh: Shared, id: Id, attempt: nat): Shared
    requires id in sh.past.slept
  {
    sh.(past := sh.past.(slept := sh.past.slept[id := sh.past.slept[id] + attempt * attempt]))
  }

  /** UPDATE ... WHERE id = $1: a missing row is no error, and sent_at changes only on delivery. */
  function WriteRow(rows: map<Id, Row>, u: Update, now: int): map<Id, Row> {
    if u.id in rows then
      rows[u.id := Row(rows[u.id].channel, u.status, u.attempts, u.response, u.error,
                       if u.status == Delivered then Some(now) else rows[u.id].sentAt)]
    else rows
  }

  function Finish(sh: Shared, u: Update, ch: Choice): Shared
    requires ch.Updated? || ch.UpdateError?
  {
    var ended := sh.past.ended[u.id := u.cause];
    if ch.Updated? then sh.(rows := WriteRow(sh.rows, u, ch.now), past := sh.past.(ended := ended))
    else sh.(past := sh.past.(ended := ended, lost := sh.past.lost + {u.id}))
  }

  function CreateDelivery(sh: Shared, id: Id, channel: Channel): Shared {
    Shared(sh.jobs, sh.rows[id := Row(channel.id, Pending, 0, 0, "", None)],
           sh.past.(sends := sh.past.sends[id := 0], slept := sh.past.slept[id := 0]))
  }

  /** One atomic action of goroutine `g`; `Blocked` when it cannot happen with this answer. */
  function Advance(c: Config, sh: Shared, g: Goroutine, ch: Choice): Outcome {
    match g
    case Idle =>
      if ch == Go && sh.jobs != [] then Moved(sh.(jobs := sh.jobs[1..]), Sending(sh.jobs[0])) else Blocked
    case Sending(job) =>
      if job.id !in sh.past.sends then Blocked
      else if ch.SendOk? then
        Moved(CountSend(sh, job.id, Reply(ch.response, "")),
              Recording(Update(job.id, Delivered, job.attempt, ch.response, "", Sent)))
      else if ch.SendError? then
        Moved(CountSend(sh, job.id, Reply(ch.response, ch.error)),
              if job.attempt < c.maxRetries then Sleeping(job, ch.response, ch.error)
              else Recording(Update(job.id, Failed, job.attempt, ch.response, ch.error, Exhausted)))
      else Blocked
    case Sleeping(job, response, error) =>
      if ch == Go && job.id in sh.past.slept then
        Moved(CountSleep(sh, job.id, job.attempt), Requeueing(job.(attempt := job.attempt + 1), response, error))
      else Blocked
    case Requeueing(job, response, error) =>
      if ch != Go then Blocked
      else if |sh.jobs| < c.capacity then Moved(sh.(jobs := sh.jobs + [job]), Idle)
      else Moved(sh, Recording(Update(job.id, Failed, job.attempt, response, error, RequeueFull)))
    case Recording(u) =>
      if ch.Updated? || ch.UpdateError? then Moved(Finish(sh, u, ch), Idle) else Blocked
    case Listing(todo) =>
      if todo == [] then (if ch == Go then Moved(sh, Returned) else Blocked)
      else if !todo[0].enabled then (if ch == Go then Moved(sh, Listing(todo[1..])) else Blocked)
      else if ch.Created? && ch.id !in sh.past.sends then
        Moved(CreateDelivery(sh, ch.id, todo[0]), Offering(Job(ch.id, todo[0], 1), todo[1..]))
      else if ch.CreateError? then Moved(sh, Listing(todo[1..]))
      else Blocked
    case Offering(job, todo) =>
      if ch != Go then Blocked
      else if |sh.jobs| < c.capacity then Moved(sh.(jobs := sh.jobs + [job]), Listing(todo))
      else Moved(sh, Refusing(Update(job.id, Failed, 0, 0, "queue full", FirstFull), todo))
    case Refusing(u, todo) =>
      if ch.Updated? || ch.UpdateError? then Moved(Finish(sh, u, ch), Listing(todo)) else Blocked
    case Returned => Blocked
  }

  // ---------- The interleaved system ----------

  /** The first `workers` goroutines are the pool, the others are Enqueue calls. */
  datatype System = System(sh: Shared, procs: seq<Goroutine>)

  datatype Step =
    | Proc(i: nat, ch: Choice)
    | Call(channels: seq<Channel>)        // a new Enqueue call, with the channels it lists
    | Cascade(ids: set<Id>)               // rows removed with their channel or alert

  function Start(c: Config): System
    requires c.Valid()
  {
    System(Shared([], map[], Past(map[], map[], map[], map[], {}, 0)), seq(c.workers, _ => Idle))
  }

  function Do(c: Config, s: System, step: Step): Option<System> {
    match step
    case Proc(i, ch) =>
      if i >= |s.procs| then None
      else (match Advance(c, s.sh, s.procs[i], ch)
            case Blocked => None
            case Moved(sh, g) => Some(System(sh, s.procs[i := g])))
    case Call(channels) => Some(s.(procs := s.procs + [Listing(channels)]))
    case Cascade(ids) => Some(s.(sh := s.sh.(rows := s.sh.rows - ids)))
  }

  function Execute(c: Config, s: System, steps: seq<Step>): Option<System> {
    if steps == [] then Some(s)
    else
      match Execute(c, s, steps[..|steps| - 1])
      case None => None
      case Some(mid) => Do(c, mid, steps[|steps| - 1])
  }

  // ---------- Where the deliveries are ----------

  function Sum<T>(xs: seq<T>, f: T -> nat): nat {
    if xs == [] then 0 else Sum(xs[..|xs| - 1], f) + f(xs[|xs| - 1])
  }

  function Bag<T>(xs: seq<T>, f: T -> multiset<Id>): multiset<Id> {
    if xs == [] then multiset{} else Bag(xs[..|xs| - 1], f) + f(xs[|xs| - 1])
  }

  /** The delivery a goroutine is responsible for. */
  function Holds(g: Goroutine): Option<Id> {
    match g
    case Idle => None
    case Sending(job) => Some(job.id)
    case Sleeping(job, _, _) => Some(job.id)
    case Requeueing(job, _, _) => Some(job.id)
    case Recording(u) => Some(u.id)
    case Listing(_) => None
    case Offering(job, _) => Some(job.id)
    case Refusing(u, _) => Some(u.id)
    case Returned => None
  }

  function One(o: Option<Id>): multiset<Id> {
    match o
    case None => multiset{}
    case Some(id) => multiset{id}
  }

  function Held(g: Goroutine): multiset<Id> {
    One(Holds(g))
  }

  function Queued(job: Job): multiset<Id> {
    multiset{job.id}
  }

  /** Every place a live delivery can be: the channel or the hands of one goroutine. */
  function Tokens(s: System): multiset<Id> {
    Bag(s.sh.jobs, Queued) + Bag(s.procs, Held)
  }

  function Live(past: Past): set<Id> {
    past.sends.Keys - past.ended.Keys
  }

  function PendingRows(rows: map<Id, Row>): set<Id> {
    set id | id in rows && rows[id].status == Pending
  }

  function SumOfSquares(n: nat): nat {
    if n == 0 then 0 else SumOfSquares(n - 1) + n * n
  }

  /** Seconds of backoff between the first and the last permitted attempt. */
  function BackoffBudget(c: Config): nat {
    if c.maxRetries > 0 then SumOfSquares(c.maxRetries - 1) else 0
  }

  /** Accounting of one delivery about to be attempted for the `attempt`-th time. */
  ghost predicate JobOk(c: Config, past: Past, job: Job) {
    && 1 <= job.attempt <= c.maxRetries
    && job.id in past.sends && past.sends[job.id] == job.attempt - 1
    && job.id in past.slept && past.slept[job.id] == SumOfSquares(job.attempt - 1)
  }

  /** What an update records, branch by branch: how its number of attempts relates to the sends
    * made, and whose reply it carries. */
  ghost predicate Accounted(c: Config, past: Past, u: Update) {
    && u.id in past.sends && u.id in past.slept
    && past.slept[u.id] <= BackoffBudget(c)
    && match u.cause
       case Sent =>
         u.status == Delivered && u.attempts == past.sends[u.id] && 1 <= u.attempts <= c.maxRetries
         && u.error == "" && Answers(past, u.id, u.response, u.error)
       case Exhausted =>
         u.status == Failed && u.attempts == past.sends[u.id] == c.maxRetries && Answers(past, u.id, u.response, u.error)
       case RequeueFull =>
         u.status == Failed && u.attempts == past.sends[u.id] + 1 && 2 <= u.attempts <= c.maxRetries
         && Answers(past, u.id, u.response, u.error)
       case FirstFull =>
         u.status == Failed && u.attempts == past.sends[u.id] == 0 && u.response == 0 && u.error == "queue full"
  }

  /** The reply to the latest send of a delivery. */
  ghost predicate Answers(past: Past, id: Id, response: int, error: string) {
    id in past.last && past.last[id] == Reply(response, error)
  }

  ghost predicate HolderOk(c: Config, past: Past, g: Goroutine) {
    match g
    case Idle => true
    case Sending(job) => JobOk(c, past, job)
    case Sleeping(job, response, error) =>
      && Answers(past, job.id, response, error)
      && 1 <= job.attempt < c.maxRetries
      && job.id in past.sends && past.sends[job.id] == job.attempt
      && job.id in past.slept && past.slept[job.id] == SumOfSquares(job.attempt - 1)
    case Requeueing(job, response, error) =>
      JobOk(c, past, job) && job.attempt >= 2 && Answers(past, job.id, response, error)
    case Recording(u) => Accounted(c, past, u) && !u.cause.FirstFull?
    case Listing(_) => true
    case Offering(job, _) => JobOk(c, past, job) && job.attempt == 1
    case Refusing(u, _) => Accounted(c, past, u) && u.cause.FirstFull?
    case Returned => true
  }

  /** A row is pending until its last write succeeds, and from then on it tells what happened. */
  ghost predicate RowOk(c: Config, past: Past, id: Id, row: Row) {
    && (row.status == Pending <==> id !in past.ended || id in past.lost)
    && (row.status != Pending ==>
          Accounted(c, past, Update(id, row.status, row.attempts, row.response, row.error, past.ended[id])))
    && (row.status == Pending ==> row.attempts == 0 && row.response == 0 && row.error == "")
    && (row.sentAt.Some? <==> row.status == Delivered)
  }

  /** Sends a live delivery may still cost. */
  function Credit(c: Config): Goroutine -> nat {
    (g: Goroutine) =>
      match g
      case Sending(job) => CreditOf(c, job.attempt)
      case Sleeping(job, _, _) => CreditOf(c, job.attempt + 1)
      case Requeueing(job, _, _) => CreditOf(c, job.attempt)
      case Offering(job, _) => CreditOf(c, job.attempt)
      case _ => 0
  }

  function JobCredit(c: Config): Job -> nat {
    (job: Job) => CreditOf(c, job.attempt)
  }

  function CreditOf(c: Config, attempt: nat): nat {
    if attempt <= c.maxRetries then c.maxRetries - attempt + 1 else 0
  }

  ghost predicate Roles(c: Config, s: System) {
    && c.workers <= |s.procs|
    && |s.sh.jobs| <= c.capacity
    && forall i :: 0 <= i < |s.procs| ==> (IsWorker(s.procs[i]) <==> i < c.workers)
  }

  /** Every created and unfinished delivery is in exactly one place, and nothing else is. */
  ghost predicate Conserved(s: System) {
    && Tokens(s) == multiset(Live(s.sh.past))
    && s.sh.past.ended.Keys <= s.sh.past.sends.Keys
    && s.sh.past.slept.Keys == s.sh.past.sends.Keys
    && s.sh.past.lost <= s.sh.past.ended.Keys
    && s.sh.rows.Keys <= s.sh.past.sends.Keys
  }

  ghost predicate Accounting(c: Config, s: System) {
    && (forall j :: 0 <= j < |s.sh.jobs| ==> JobOk(c, s.sh.past, s.sh.jobs[j]))
    && (forall i :: 0 <= i < |s.procs| ==> HolderOk(c, s.sh.past, s.procs[i]))
    && (forall id :: id in s.sh.rows ==> RowOk(c, s.sh.past, id, s.sh.rows[id]))
    && (forall id :: id in s.sh.past.ended ==> Spent(c, s.sh.past, id))
  }

  /** A finished delivery stayed within its budget of sends and of sleep. */
  ghost predicate Spent(c: Config, past: Past, id: Id) {
    && id in past.sends && past.sends[id] <= c.maxRetries
    && id in past.slept && past.slept[id] <= BackoffBudget(c)
  }

  ghost predicate Solvent(c: Config, s: System) {
    s.sh.past.total + Sum(s.sh.jobs, JobCredit(c)) + Sum(s.procs, Credit(c)) <= c.maxRetries * |s.sh.past.sends|
  }

  ghost predicate Inv(c: Config, s: System) {
    c.Valid() && Roles(c, s) && Conserved(s) && Accounting(c, s) && Solvent(c, s)
  }

  // ---------- Facts about the two folds ----------

  lemma {:induction false} SumUpdate<T>(xs: seq<T>, f: T -> nat, i: nat, x: T)
    requires i < |xs|
    ensures Sum(xs[i := x], f) + f(xs[i]) == Sum(xs, f) + f(x)
  {
    var n := |xs| - 1;
    if i < n {
      SumUpdate(xs[..n], f, i, x);
      assert xs[i := x][..n] == xs[..n][i := x];
    } else {
      assert xs[i := x][..n] == xs[..n];
    }
  }

  lemma SumAppend<T>(xs: seq<T>, f: T -> nat, x: T)
    ensures Sum(xs + [x], f) == Sum(xs, f) + f(x)
  {
    assert (xs + [x])[..|xs|] == xs;
  }

  lemma {:induction false} SumTail<T>(xs: seq<T>, f: T -> nat)
    requires xs != []
    ensures Sum(xs, f) == f(xs[0]) + Sum(xs[1..], f)
  {
    var n := |xs| - 1;
    if n == 0 {
    } else {
      SumTail(xs[..n], f);
      assert xs[1..][..n - 1] == xs[..n][1..];
    }
  }

  lemma {:induction false} SumPositive<T>(xs: seq<T>, f: T -> nat, i: nat)
    requires i < |xs|
    ensures f(xs[i]) <= Sum(xs, f)
  {
    if i == |xs| - 1 {
    } else {
      SumPositive(xs[..|xs| - 1], f, i);
    }
  }

  lemma {:induction false} BagUpdate<T>(xs: seq<T>, f: T -> multiset<Id>, i: nat, x: T)
    requires i < |xs|
    ensures Bag(xs[i := x], f) + f(xs[i]) == Bag(xs, f) + f(x)
  {
    var n := |xs| - 1;
    if i < n {
      BagUpdate(xs[..n], f, i, x);
      assert xs[i := x][..n] == xs[..n][i := x];
      var rest := Bag(xs[..n], f);
      var rest' := Bag(xs[i := x][..n], f);
      assert rest' + f(xs[n]) + f(xs[i]) == (rest' + f(xs[i])) + f(xs[n]);
      assert (rest + f(x)) + f(xs[n]) == (rest + f(xs[n])) + f(x);
    } else {
      assert xs[i := x][..n] == xs[..n];
    }
  }

  lemma BagAppend<T>(xs: seq<T>, f: T -> multiset<Id>, x: T)
    ensures Bag(xs + [x], f) == Bag(xs, f) + f(x)
  {
    assert (xs + [x])[..|xs|] == xs;
  }

  lemma {:induction false} BagTail<T>(xs: seq<T>, f: T -> multiset<Id>)
    requires xs != []
    ensures Bag(xs, f) == f(xs[0]) + Bag(xs[1..], f)
  {
    var n := |xs| - 1;
    if n == 0 {
    } else {
      BagTail(xs[..n], f);
      assert xs[1..][..n - 1] == xs[..n][1..];
    }
  }

  lemma {:induction false} BagHolds<T>(xs: seq<T>, f: T -> multiset<Id>, i: nat)
    requires i < |xs|
    ensures f(xs[i]) <= Bag(xs, f)
  {
    if i == |xs| - 1 {
    } else {
      BagHolds(xs[..|xs| - 1], f, i);
    }
  }

  /** Two positions contribute separately. */
  lemma {:induction false} BagHoldsTwo<T>(xs: seq<T>, f: T -> multiset<Id>, i: nat, j: nat)
    requires i < j < |xs|
    ensures f(xs[i]) + f(xs[j]) <= Bag(xs, f)
  {
    if j < |xs| - 1 {
      BagHoldsTwo(xs[..|xs| - 1], f, i, j);
    } else {
      BagHolds(xs[..|xs| - 1], f, i);
    }
  }

  /** A bag whose elements contribute at most one each is no larger than the sequence. */
  lemma {:induction false} BagSize<T>(xs: seq<T>, f: T -> multiset<Id>)
    requires forall x :: |f(x)| <= 1
    ensures |Bag(xs, f)| <= |xs|
  {
    if xs == [] {
    } else {
      BagSize(xs[..|xs| - 1], f);
    }
  }
}
