/** The sliding-window rate limiter of internal/middleware/middleware.go.
  * Times are integers read from one monotone clock while the mutex is held. */
module Middleware {
  datatype Request = Request(addr: string, now: int)

  type Table = map<string, seq<int>>

  datatype Verdict = Verdict(admitted: bool, table: Table)

  // ---------- The client key ----------

  /** Position of the last colon, or -1. */
  function LastColon(s: string): (i: int)
    ensures -1 <= i < |s|
    ensures i >= 0 ==> s[i] == ':'
    ensures forall k :: i < k < |s| ==> s[k] != ':'
  {
    if s == "" then -1
    else if s[|s| - 1] == ':' then |s| - 1
    else LastColon(s[..|s| - 1])
  }

  function ClientKey(addr: string): string {
    var i := LastColon(addr);
    if i != -1 then addr[..i] else addr
  }

  /** Exactly the port is dropped, whatever colons the host (an IPv6 address) holds. */
  lemma ClientKeyDropsPort(host: string, port: string)
    requires ':' !in port
    ensures ClientKey(host + ":" + port) == host
    ensures ClientKey(port) == port
  {
    var addr := host + ":" + port;
    var i := LastColon(addr);
    assert addr[|host|] == ':';
    assert forall k :: |host| < k < |addr| ==> addr[k] == port[k - |host| - 1];
    assert i == |host|;
    assert addr[..|host|] == host;
  }

  // ---------- One request ----------

  /** The entries later than `cutoff`, in order. */
  function After(ts: seq<int>, cutoff: int): seq<int> {
    if ts == [] then []
    else
      var rest := After(ts[..|ts| - 1], cutoff);
      if ts[|ts| - 1] > cutoff then rest + [ts[|ts| - 1]] else rest
  }

  function Stored(table: Table, ip: string): seq<int> {
    if ip in table then table[ip] else []
  }

  /** The decision on one request and the table it leaves behind. */
  function Handle(limit: int, window: int, table: Table, r: Request): Verdict {
    if limit <= 0 then Verdict(true, table)
    else
      var ip := ClientKey(r.addr);
      var valid := After(Stored(table, ip), r.now - window);
      if |valid| >= limit then Verdict(false, table[ip := valid])
      else Verdict(true, table[ip := valid + [r.now]])
  }

  class RateLimiter {
    var requests: Table
    const limit: int
    const window: int

    constructor (limit: int, window: int)
      ensures this.limit == limit && this.window == window && requests == map[]
    {
      this.limit := limit;
      this.window := window;
      requests := map[];
    }

    method Limit(r: Request) returns (admitted: bool)
      modifies this`requests
      ensures Verdict(admitted, requests) == Handle(limit, window, old(requests), r)
      ensures limit <= 0 ==> admitted && requests == old(requests)
    {
      if limit <= 0 {
        return true;
      }
      var ip := ClientKey(r.addr);
      var cutoff := r.now - window;
      var times := Stored(requests, ip);
      var valid := [];
      for i := 0 to |times|
        invariant valid == After(times[..i], cutoff)
      {
        assert times[..i + 1][..i] == times[..i];
        if times[i] > cutoff {
          valid := valid + [times[i]];
        }
      }
      assert times[..|times|] == times;
      if |valid| >= limit {
        requests := requests[ip := valid];
        return false;
      }
      requests := requests[ip := valid + [r.now]];
      return true;
    }
  }

  // ---------- Filtering and counting ----------

  lemma AfterSnoc(ts: seq<int>, t: int, x: int)
    ensures After(ts + [t], x) == if t > x then After(ts, x) + [t] else After(ts, x)
  {
    assert (ts + [t])[..|ts|] == ts;
  }

  lemma {:induction false} AfterOfAfter(ts: seq<int>, c: int, x: int)
    requires c <= x
    ensures After(After(ts, c), x) == After(ts, x)
  {
    if ts == [] {
    } else {
      var init := ts[..|ts| - 1];
      AfterOfAfter(init, c, x);
      if ts[|ts| - 1] > c {
        AfterSnoc(After(init, c), ts[|ts| - 1], x);
      }
    }
  }

  lemma {:induction false} AfterShrinks(ts: seq<int>, c: int, x: int)
    requires c <= x
    ensures |After(ts, x)| <= |After(ts, c)| <= |ts|
  {
    if ts == [] {
    } else {
      AfterShrinks(ts[..|ts| - 1], c, x);
    }
  }

  /** How many entries lie in the half-open interval (lo, hi]. */
  function CountIn(ts: seq<int>, lo: int, hi: int): nat {
    if ts == [] then 0
    else CountIn(ts[..|ts| - 1], lo, hi) + if lo < ts[|ts| - 1] <= hi then 1 else 0
  }

  lemma CountSnoc(ts: seq<int>, t: int, lo: int, hi: int)
    ensures CountIn(ts + [t], lo, hi) == CountIn(ts, lo, hi) + if lo < t <= hi then 1 else 0
  {
    assert (ts + [t])[..|ts|] == ts;
  }

  ghost predicate NoneLater(ts: seq<int>, hi: int) {
    forall i :: 0 <= i < |ts| ==> ts[i] <= hi
  }

  lemma {:induction false} CountAtMostAfter(ts: seq<int>, lo: int, hi: int)
    ensures CountIn(ts, lo, hi) <= |After(ts, lo)|
    ensures NoneLater(ts, hi) ==> CountIn(ts, lo, hi) == |After(ts, lo)|
  {
    if ts == [] {
    } else {
      CountAtMostAfter(ts[..|ts| - 1], lo, hi);
    }
  }

  lemma {:induction false} CountSplits(ts: seq<int>, lo: int, mid: int, hi: int)
    requires lo <= mid <= hi
    ensures CountIn(ts, lo, hi) == CountIn(ts, lo, mid) + CountIn(ts, mid, hi)
  {
    if ts == [] {
    } else {
      CountSplits(ts[..|ts| - 1], lo, mid, hi);
    }
  }

  // ---------- Runs ----------

  /** The limiter's table beside the record of every admission, from which nothing is ever removed. */
  datatype Trace = Trace(table: Table, history: Table)

  function Serve(limit: int, window: int, s: Trace, r: Request): Trace {
    var v := Handle(limit, window, s.table, r);
    var ip := ClientKey(r.addr);
    Trace(v.table, if v.admitted then s.history[ip := Stored(s.history, ip) + [r.now]] else s.history)
  }

  /** The trace after serving `rs` from an empty limiter. */
  function Run(limit: int, window: int, rs: seq<Request>): Trace {
    if rs == [] then Trace(map[], map[])
    else Serve(limit, window, Run(limit, window, rs[..|rs| - 1]), rs[|rs| - 1])
  }

  function Admissions(limit: int, window: int, rs: seq<Request>, ip: string): seq<int> {
    Stored(Run(limit, window, rs).history, ip)
  }

  ghost predicate Monotone(rs: seq<Request>) {
    forall i, j :: 0 <= i < j < |rs| ==> rs[i].now <= rs[j].now
  }

  lemma MonotoneInit(rs: seq<Request>, r: Request)
    requires Monotone(rs + [r])
    ensures Monotone(rs) && (rs != [] ==> rs[|rs| - 1].now <= r.now)
  {
    assert forall i :: 0 <= i < |rs| ==> (rs + [r])[i] == rs[i];
    assert rs != [] ==> (rs + [r])[|rs| - 1].now <= (rs + [r])[|rs|].now;
  }

  /** Beyond the cutoff of instant `last` the pruned list and the full history agree, and so they do
    * beyond any later cutoff. */
  ghost predicate Faithful(window: int, s: Trace, ip: string, last: int) {
    After(Stored(s.table, ip), last - window) == After(Stored(s.history, ip), last - window)
  }

  /** Entries in the window ending at `x`. */
  function WindowCount(ts: seq<int>, window: int, x: int): nat {
    CountIn(ts, x - window, x)
  }

  ghost predicate Bounded(limit: int, window: int, s: Trace, ip: string) {
    forall x :: WindowCount(Stored(s.history, ip), window, x) <= limit
  }

  /** What the limiter keeps for every client, `last` being a time no earlier than its last request. */
  ghost predicate Sound(limit: int, window: int, s: Trace, ip: string, last: int) {
    && Faithful(window, s, ip, last)
    && NoneLater(Stored(s.history, ip), last)
    && |Stored(s.table, ip)| <= limit
    && Bounded(limit, window, s, ip)
  }

  ghost predicate SameFor(s: Trace, s': Trace, ip: string) {
    Stored(s.table, ip) == Stored(s'.table, ip) && Stored(s.history, ip) == Stored(s'.history, ip)
  }

  /** Serving another client changes nothing for `ip`; serving `ip` depends on its own entries only. */
  lemma ServeLocal(limit: int, window: int, s: Trace, s': Trace, r: Request, ip: string)
    requires SameFor(s, s', ip)
    ensures ClientKey(r.addr) != ip ==> SameFor(Serve(limit, window, s, r), s', ip)
    ensures ClientKey(r.addr) == ip ==> SameFor(Serve(limit, window, s, r), Serve(limit, window, s', r), ip)
  {}

  /** What serving a request does to its own client. */
  lemma ServeOwn(limit: int, window: int, s: Trace, r: Request)
    requires limit > 0
    ensures var ip := ClientKey(r.addr);
            var s' := Serve(limit, window, s, r);
            var valid, past := After(Stored(s.table, ip), r.now - window), Stored(s.history, ip);
            if |valid| >= limit then Stored(s'.table, ip) == valid && Stored(s'.history, ip) == past
            else Stored(s'.table, ip) == valid + [r.now] && Stored(s'.history, ip) == past + [r.now]
  {}

  lemma AgreesLater(stored: seq<int>, past: seq<int>, c: int, x: int)
    requires c <= x && After(stored, c) == After(past, c)
    ensures After(stored, x) == After(past, x)
  {
    AfterOfAfter(stored, c, x);
    AfterOfAfter(past, c, x);
  }

  lemma AdmittedAgrees(stored: seq<int>, past: seq<int>, cutoff: int, now: int)
    requires After(stored, cutoff) == After(past, cutoff)
    ensures After(After(stored, cutoff) + [now], cutoff) == After(past + [now], cutoff)
  {
    AfterOfAfter(stored, cutoff, cutoff);
    AfterSnoc(After(stored, cutoff), now, cutoff);
    AfterSnoc(past, now, cutoff);
  }

  lemma ServeFaithful(limit: int, window: int, s: Trace, r: Request, ip: string, last: int)
    requires limit > 0 && last <= r.now && Faithful(window, s, ip, last)
    ensures Faithful(window, Serve(limit, window, s, r), ip, r.now)
  {
    var stored, past := Stored(s.table, ip), Stored(s.history, ip);
    AgreesLater(stored, past, last - window, r.now - window);
    if ClientKey(r.addr) != ip {
      ServeLocal(limit, window, s, s, r, ip);
    } else {
      ServeOwn(limit, window, s, r);
      AdmittedAgrees(stored, past, r.now - window, r.now);
      AfterOfAfter(stored, r.now - window, r.now - window);
    }
  }

  /** One more admission fits every window when fewer than `limit` lie after the current cutoff. */
  lemma AdmissionFits(limit: int, window: int, past: seq<int>, now: int, x: int)
    requires |After(past, now - window)| < limit && WindowCount(past, window, x) <= limit
    ensures WindowCount(past + [now], window, x) <= limit
  {
    CountSnoc(past, now, x - window, x);
    if now <= x {
      CountAtMostAfter(past, x - window, x);
      AfterShrinks(past, now - window, x - window);
    }
  }

  lemma ServeBounded(limit: int, window: int, s: Trace, r: Request, ip: string, last: int)
    requires limit > 0 && last <= r.now && Faithful(window, s, ip, last) && Bounded(limit, window, s, ip)
    ensures Bounded(limit, window, Serve(limit, window, s, r), ip)
  {
    ServeLocal(limit, window, s, s, r, ip);
    var past := Stored(s.history, ip);
    if ClientKey(r.addr) == ip && Handle(limit, window, s.table, r).admitted {
      AgreesLater(Stored(s.table, ip), past, last - window, r.now - window);
      forall x ensures WindowCount(past + [r.now], window, x) <= limit {
        AdmissionFits(limit, window, past, r.now, x);
      }
      assert Stored(Serve(limit, window, s, r).history, ip) == past + [r.now];
    }
  }

  lemma ServeHistory(limit: int, window: int, s: Trace, r: Request, ip: string, last: int)
    requires limit > 0 && last <= r.now
    requires NoneLater(Stored(s.history, ip), last) && |Stored(s.table, ip)| <= limit
    ensures var s' := Serve(limit, window, s, r);
            NoneLater(Stored(s'.history, ip), r.now) && |Stored(s'.table, ip)| <= limit
  {
    ServeLocal(limit, window, s, s, r, ip);
    if ClientKey(r.addr) == ip {
      AfterShrinks(Stored(s.table, ip), r.now - window, r.now - window);
    }
  }

  lemma ServeSound(limit: int, window: int, s: Trace, r: Request, ip: string, last: int)
    requires limit > 0 && last <= r.now && Sound(limit, window, s, ip, last)
    ensures Sound(limit, window, Serve(limit, window, s, r), ip, r.now)
  {
    ServeFaithful(limit, window, s, r, ip, last);
    ServeBounded(limit, window, s, r, ip, last);
    ServeLocal(limit, window, s, s, r, ip);
    ServeHistory(limit, window, s, r, ip, last);
  }

  lemma SoundLater(limit: int, window: int, s: Trace, ip: string, last: int, later: int)
    requires Sound(limit, window, s, ip, last) && last <= later
    ensures Sound(limit, window, s, ip, later)
  {
    AgreesLater(Stored(s.table, ip), Stored(s.history, ip), last - window, later - window);
  }

  /** The invariant over every run, read at any instant `last` from the last request on. */
  lemma {:induction false} RunSound(limit: int, window: int, rs: seq<Request>, ip: string, last: int)
    requires limit > 0 && Monotone(rs) && (rs != [] ==> rs[|rs| - 1].now <= last)
    ensures Sound(limit, window, Run(limit, window, rs), ip, last)
  {
    if rs == [] {
      assert Stored(Run(limit, window, rs).history, ip) == [];
    } else {
      var n := |rs| - 1;
      var r := rs[n];
      assert n > 0 ==> rs[..n][n - 1] == rs[n - 1];
      RunSound(limit, window, rs[..n], ip, r.now);
      ServeSound(limit, window, Run(limit, window, rs[..n]), r, ip, r.now);
      SoundLater(limit, window, Run(limit, window, rs), ip, r.now, last);
    }
  }

  // ---------- What the limiter promises ----------

  /** At most `limit` admissions of one client in (x - window, x], for every run and every instant x. */
  lemma WindowBound(limit: int, window: int, rs: seq<Request>, ip: string, x: int)
    requires limit > 0 && Monotone(rs)
    ensures CountIn(Admissions(limit, window, rs, ip), x - window, x) <= limit
  {
    RunSound(limit, window, rs, ip, if rs == [] then 0 else rs[|rs| - 1].now);
    assert WindowCount(Admissions(limit, window, rs, ip), window, x) <= limit;
  }

  /** The limiter decides like one that never forgets: after any run, a request is refused exactly
    * when `limit` admissions of its client already lie in the window ending at it. */
  lemma DecidesLikeFullHistory(limit: int, window: int, rs: seq<Request>, r: Request)
    requires limit > 0 && Monotone(rs + [r])
    ensures var past := Admissions(limit, window, rs, ClientKey(r.addr));
            !Handle(limit, window, Run(limit, window, rs).table, r).admitted
            <==> CountIn(past, r.now - window, r.now) == limit
  {
    var s := Run(limit, window, rs);
    var ip := ClientKey(r.addr);
    var past := Admissions(limit, window, rs, ip);
    MonotoneInit(rs, r);
    RunSound(limit, window, rs, ip, r.now);
    assert After(Stored(s.table, ip), r.now - window) == After(past, r.now - window);
    CountAtMostAfter(past, r.now - window, r.now);
    assert WindowCount(past, window, r.now) <= limit;
  }

  lemma ServeStored(limit: int, window: int, s: Trace, r: Request)
    requires limit > 0 && window > 0
    ensures var stored := Stored(Serve(limit, window, s, r).table, ClientKey(r.addr));
            After(stored, r.now - window) == stored
  {
    var ts, cutoff := Stored(s.table, ClientKey(r.addr)), r.now - window;
    ServeOwn(limit, window, s, r);
    AfterOfAfter(ts, cutoff, cutoff);
    AfterSnoc(After(ts, cutoff), r.now, cutoff);
  }

  /** Right after a request the stored list of its client is the history filtered to the current
    * window, and it never holds more than `limit` entries. */
  lemma StoredListIsWindow(limit: int, window: int, rs: seq<Request>)
    requires limit > 0 && window > 0 && Monotone(rs) && rs != []
    ensures var ip := ClientKey(rs[|rs| - 1].addr);
            var stored := Stored(Run(limit, window, rs).table, ip);
            && stored == After(Admissions(limit, window, rs, ip), rs[|rs| - 1].now - window)
            && |stored| <= limit
  {
    var n := |rs| - 1;
    RunSound(limit, window, rs, ClientKey(rs[n].addr), rs[n].now);
    ServeStored(limit, window, Run(limit, window, rs[..n]), rs[n]);
  }

  /** A window that also contains its left end holds at most twice the limit ... */
  lemma ClosedWindowBound(limit: int, window: int, rs: seq<Request>, ip: string, x: int)
    requires limit > 0 && window > 0 && Monotone(rs)
    ensures CountIn(Admissions(limit, window, rs, ip), x - window - 1, x) <= 2 * limit
  {
    var ts := Admissions(limit, window, rs, ip);
    CountSplits(ts, x - window - 1, x - window, x);
    CountSplits(ts, x - 2 * window, x - window - 1, x - window);
    WindowBound(limit, window, rs, ip, x);
    WindowBound(limit, window, rs, ip, x - window);
  }

  /** `n` requests of one client at one instant. */
  function Burst(addr: string, now: int, n: nat): seq<Request> {
    seq(n, _ => Request(addr, now))
  }

  /** ... and two full bursts exactly one window apart reach that, for every limit and window. */
  lemma ClosedWindowAttained(limit: nat, window: int, addr: string)
    requires limit > 0 && window > 0
    ensures var rs := Burst(addr, 0, limit) + Burst(addr, window, limit);
            && Monotone(rs)
            && CountIn(Admissions(limit, window, rs, ClientKey(addr)), -1, window) == 2 * limit
  {
    FirstBurst(limit, window, addr, limit);
    SecondBurst(limit, window, addr, limit);
  }

  /** A request is admitted when fewer than `limit` admissions are still in its window. */
  lemma RoomAdmits(limit: int, window: int, rs: seq<Request>, r: Request)
    requires limit > 0 && Monotone(rs + [r])
    requires |After(Admissions(limit, window, rs, ClientKey(r.addr)), r.now - window)| < limit
    ensures Admissions(limit, window, rs + [r], ClientKey(r.addr))
            == Admissions(limit, window, rs, ClientKey(r.addr)) + [r.now]
  {
    DecidesLikeFullHistory(limit, window, rs, r);
    CountAtMostAfter(Admissions(limit, window, rs, ClientKey(r.addr)), r.now - window, r.now);
    assert (rs + [r])[..|rs|] == rs;
  }

  /** The next request after one burst and part of another. */
  lemma BurstsMonotone(addr: string, m: nat, window: int, n: nat)
    requires window > 0
    ensures Monotone(Burst(addr, 0, m) + Burst(addr, window, n))
    ensures Burst(addr, window, n + 1) == Burst(addr, window, n) + [Request(addr, window)]
    ensures Burst(addr, 0, m) + Burst(addr, window, n + 1) == (Burst(addr, 0, m) + Burst(addr, window, n)) + [Request(addr, window)]
  {}

  lemma {:induction false} FirstBurst(limit: nat, window: int, addr: string, n: nat)
    requires n <= limit && window > 0
    ensures var ts := Admissions(limit, window, Burst(addr, 0, n), ClientKey(addr));
            CountIn(ts, -1, window) == n == |ts| && After(ts, 0) == []
  {
    if n == 0 {
    } else {
      var rs := Burst(addr, 0, n - 1);
      FirstBurst(limit, window, addr, n - 1);
      var before := Admissions(limit, window, rs, ClientKey(addr));
      assert Burst(addr, 0, n) == rs + [Request(addr, 0)];
      AfterShrinks(before, -window, -window);
      RoomAdmits(limit, window, rs, Request(addr, 0));
      CountSnoc(before, 0, -1, window);
      AfterSnoc(before, 0, 0);
    }
  }

  lemma {:induction false} SecondBurst(limit: nat, window: int, addr: string, n: nat)
    requires 0 < limit && n <= limit && window > 0
    ensures var ts := Admissions(limit, window, Burst(addr, 0, limit) + Burst(addr, window, n), ClientKey(addr));
            CountIn(ts, -1, window) == limit + n && |After(ts, 0)| == n
  {
    if n == 0 {
      FirstBurst(limit, window, addr, limit);
      assert Burst(addr, 0, limit) + Burst(addr, window, 0) == Burst(addr, 0, limit);
    } else {
      var rs := Burst(addr, 0, limit) + Burst(addr, window, n - 1);
      var r := Request(addr, window);
      SecondBurst(limit, window, addr, n - 1);
      BurstsMonotone(addr, limit, window, n - 1);
      BurstsMonotone(addr, limit, window, n);
      SecondBurstStep(limit, window, rs, r, n);
    }
  }

  lemma SecondBurstStep(limit: nat, window: int, rs: seq<Request>, r: Request, n: nat)
    requires 0 < n <= limit && window > 0 && r.now == window && Monotone(rs + [r])
    requires var ts := Admissions(limit, window, rs, ClientKey(r.addr));
             CountIn(ts, -1, window) == limit + n - 1 && |After(ts, 0)| == n - 1
    ensures var ts := Admissions(limit, window, rs + [r], ClientKey(r.addr));
            CountIn(ts, -1, window) == limit + n && |After(ts, 0)| == n
  {
    var before := Admissions(limit, window, rs, ClientKey(r.addr));
    RoomAdmits(limit, window, rs, r);
    CountSnoc(before, window, -1, window);
    AfterSnoc(before, window, 0);
  }

  // ---------- Clients do not affect each other ----------

  function Only(rs: seq<Request>, ip: string): seq<Request> {
    if rs == [] then []
    else
      var n := |rs| - 1;
      if ClientKey(rs[n].addr) == ip then Only(rs[..n], ip) + [rs[n]] else Only(rs[..n], ip)
  }

  /** Removing every other client's requests changes neither a client's list nor its admissions. */
  lemma {:induction false} ClientsAreIndependent(limit: int, window: int, rs: seq<Request>, ip: string)
    ensures SameFor(Run(limit, window, rs), Run(limit, window, Only(rs, ip)), ip)
  {
    if rs == [] {
    } else {
      var n := |rs| - 1;
      var only := Only(rs[..n], ip);
      ClientsAreIndependent(limit, window, rs[..n], ip);
      ServeLocal(limit, window, Run(limit, window, rs[..n]), Run(limit, window, only), rs[n], ip);
      if ClientKey(rs[n].addr) == ip {
        assert (only + [rs[n]])[..|only|] == only;
      }
    }
  }
}
