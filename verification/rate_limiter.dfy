/** The token-bucket rate limiter.  Time is in nanoseconds on a clock that does not run
    backwards; refills are counted exactly. */
module RateLimiter {
  import opened Basics

  const MINUTE: int := 60_000_000_000
  const STALE: int := 10 * MINUTE

  datatype Bucket = Bucket(tokens: int, lastRefill: int)

  type Clients = map<string, Bucket>

  /** Tokens earned in some time, cut towards zero. */
  function Earned(elapsed: int, rpm: int): int {
    var x := elapsed * rpm;
    if x >= 0 then x / MINUTE else -((-x) / MINUTE)
  }

  /** The refill a request starts with. */
  function Refilled(b: Bucket, rpm: int, now: int): Bucket {
    var k := Earned(now - b.lastRefill, rpm);
    if k > 0 then Bucket(Min(rpm, b.tokens + k), now) else b
  }

  /** The bucket a request leaves behind, and whether it is admitted. */
  function Spend(b: Bucket): (Bucket, bool) {
    if b.tokens > 0 then (b.(tokens := b.tokens - 1), true) else (b, false)
  }

  function Allowed(clients: Clients, rpm: int, client: string, now: int): (Clients, bool) {
    if client !in clients then (clients[client := Bucket(rpm - 1, now)], true)
    else
      var (b, ok) := Spend(Refilled(clients[client], rpm, now));
      (clients[client := b], ok)
  }

  function Swept(clients: Clients, now: int): Clients {
    map c | c in clients && now - clients[c].lastRefill <= STALE :: clients[c]
  }

  class Limiter {
    var clients: Clients
    const requestsPerMin: int

    constructor (requestsPerMin: int)
      ensures clients == map[] && this.requestsPerMin == requestsPerMin
    {
      clients := map[];
      this.requestsPerMin := requestsPerMin;
    }

    method Allow(client: string, now: int) returns (ok: bool)
      modifies this
      ensures (clients, ok) == Allowed(old(clients), requestsPerMin, client, now)
    {
      if client !in clients {
        clients := clients[client := Bucket(requestsPerMin - 1, now)];
        return true;
      }
      var b := clients[client];
      var tokensToAdd := Earned(now - b.lastRefill, requestsPerMin);
      if tokensToAdd > 0 {
        b := Bucket(Min(requestsPerMin, b.tokens + tokensToAdd), now);
      }
      ok := false;
      if b.tokens > 0 {
        b := b.(tokens := b.tokens - 1);
        ok := true;
      }
      clients := clients[client := b];
    }

    method Cleanup(now: int)
      modifies this
      ensures clients == Swept(old(clients), now)
      ensures forall c :: c in clients <==> c in old(clients) && now - old(clients)[c].lastRefill <= 600_000_000_000
    {
      var todo := clients.Keys;
      while todo != {}
        invariant todo <= old(clients).Keys
        invariant clients == map c | c in old(clients) && (c in todo || now - old(clients)[c].lastRefill <= STALE)
                                   :: old(clients)[c]
        decreases todo
      {
        var client :| client in todo;
        if now - clients[client].lastRefill > STALE {
          clients := clients - {client};
        }
        todo := todo - {client};
      }
    }
  }

  // ------------------------------------------------------------------ runs

  datatype Event = Request(client: string, at: int) | Sweep(at: int)

  /** Times do not run backwards, starting from now. */
  predicate Monotone(events: seq<Event>, now: int) {
    events == [] || (now <= events[0].at && Monotone(events[1..], events[0].at))
  }

  function Next(clients: Clients, rpm: int, e: Event): Clients {
    match e
    case Request(c, t) => Allowed(clients, rpm, c, t).0
    case Sweep(t) => Swept(clients, t)
  }

  function After(clients: Clients, rpm: int, events: seq<Event>): Clients
    decreases |events|
  {
    if events == [] then clients else After(Next(clients, rpm, events[0]), rpm, events[1..])
  }

  /** The answers to the requests of a run. */
  function Answers(clients: Clients, rpm: int, events: seq<Event>): seq<bool>
    decreases |events|
  {
    if events == [] then []
    else
      (if events[0].Request? then [Allowed(clients, rpm, events[0].client, events[0].at).1] else [])
      + Answers(Next(clients, rpm, events[0]), rpm, events[1..])
  }

  function RequestsOnly(events: seq<Event>): seq<Event> {
    if events == [] then []
    else (if events[0].Request? then [events[0]] else []) + RequestsOnly(events[1..])
  }

  // ------------------------------------------------------------------ buckets stay sound

  predicate Sound(b: Bucket, rpm: int, now: int) {
    0 <= b.tokens <= rpm && b.lastRefill <= now
  }

  ghost predicate AllSound(clients: Clients, rpm: int, now: int) {
    forall c :: c in clients ==> Sound(clients[c], rpm, now)
  }

  lemma EarnedBounds(elapsed: int, rpm: int)
    requires 0 <= elapsed && 1 <= rpm
    ensures Earned(elapsed, rpm) * MINUTE <= elapsed * rpm < (Earned(elapsed, rpm) + 1) * MINUTE
    ensures Earned(elapsed, rpm) >= 0
  {
    assert elapsed * rpm >= 0;
  }

  /** Tokens never leave the range from zero to the limit. */
  lemma RequestKeepsSound(clients: Clients, rpm: int, client: string, now: int, at: int)
    requires 1 <= rpm && now <= at && AllSound(clients, rpm, now)
    ensures AllSound(Allowed(clients, rpm, client, at).0, rpm, at)
  {
  }

  lemma NextKeepsSound(clients: Clients, rpm: int, e: Event, now: int)
    requires 1 <= rpm && now <= e.at && AllSound(clients, rpm, now)
    ensures AllSound(Next(clients, rpm, e), rpm, e.at)
  {
    if e.Request? {
      RequestKeepsSound(clients, rpm, e.client, now, e.at);
    }
  }

  lemma {:induction false} RunKeepsSound(clients: Clients, rpm: int, events: seq<Event>, now: int)
    requires 1 <= rpm && Monotone(events, now) && AllSound(clients, rpm, now)
    ensures AllSound(After(clients, rpm, events), rpm, if events == [] then now else events[|events| - 1].at)
    decreases |events|
  {
    if events != [] {
      NextKeepsSound(clients, rpm, events[0], now);
      RunKeepsSound(Next(clients, rpm, events[0]), rpm, events[1..], events[0].at);
    }
  }

  // ------------------------------------------------------------------ cleanup is unobservable

  /** swept is full without buckets that have gone stale. */
  ghost predicate StaleMissing(swept: Clients, full: Clients, now: int) {
    && swept.Keys <= full.Keys
    && (forall c :: c in swept ==> swept[c] == full[c])
    && (forall c :: c in full && c !in swept ==> now - full[c].lastRefill > STALE)
  }

  /** A stale bucket answers, and is left, like a fresh one. */
  lemma StaleIsFresh(b: Bucket, rpm: int, now: int, at: int)
    requires 1 <= rpm && Sound(b, rpm, at) && at - b.lastRefill > STALE
    ensures Spend(Refilled(b, rpm, at)) == (Bucket(rpm - 1, at), true)
  {
    var elapsed := at - b.lastRefill;
    EarnedBounds(elapsed, rpm);
    assert elapsed * rpm >= STALE * rpm;
    assert (Earned(elapsed, rpm) + 1) * MINUTE > 10 * rpm * MINUTE;
  }

  lemma RequestHidesSweep(swept: Clients, full: Clients, rpm: int, client: string, now: int, at: int)
    requires 1 <= rpm && now <= at && StaleMissing(swept, full, now) && AllSound(full, rpm, now)
    ensures Allowed(swept, rpm, client, at).1 == Allowed(full, rpm, client, at).1
    ensures StaleMissing(Allowed(swept, rpm, client, at).0, Allowed(full, rpm, client, at).0, at)
  {
    if client in full && client !in swept {
      StaleIsFresh(full[client], rpm, now, at);
    }
  }

  /** With a positive limit, no schedule of cleanups changes any answer. */
  lemma {:induction false} SweepsHidden(swept: Clients, full: Clients, rpm: int, events: seq<Event>, now: int)
    requires 1 <= rpm && Monotone(events, now) && StaleMissing(swept, full, now) && AllSound(full, rpm, now)
    ensures Answers(swept, rpm, events) == Answers(full, rpm, RequestsOnly(events))
    decreases |events|
  {
    if events != [] {
      var e, rest := events[0], events[1..];
      match e
      case Request(c, t) =>
        RequestHidesSweep(swept, full, rpm, c, now, t);
        RequestKeepsSound(full, rpm, c, now, t);
        SweepsHidden(Next(swept, rpm, e), Next(full, rpm, e), rpm, rest, t);
        assert ([e] + RequestsOnly(rest))[1..] == RequestsOnly(rest);
      case Sweep(t) =>
        SweepsHidden(Swept(swept, t), full, rpm, rest, t);
        assert [] + RequestsOnly(rest) == RequestsOnly(rest);
    }
  }

  ghost predicate CleanupUnobservable(rpm: int) {
    forall events, now :: Monotone(events, now) ==>
      Answers(map[], rpm, events) == Answers(map[], rpm, RequestsOnly(events))
  }

  /** Without a positive limit the second request is answered differently after a cleanup. */
  lemma CleanupObservable(rpm: int)
    requires rpm <= 0
    ensures !CleanupUnobservable(rpm)
  {
    var late := STALE + 1;
    var first, sweep, last := Request("a", 0), Sweep(late), Request("a", late);
    var events := [first, sweep, last];
    var once := Next(map[], rpm, first);
    assert events[1..] == [sweep, last] && events[1..][1..] == [last] && [last][1..] == [];
    assert once == map["a" := Bucket(rpm - 1, 0)] && Swept(once, late) == map[];
    assert Answers(map[], rpm, [last]) == [true];
    assert Answers(once, rpm, [sweep, last]) == [true];
    assert Answers(map[], rpm, events) == [true, true];
    SecondIsDenied(rpm, late);
    assert Answers(once, rpm, [last]) == [false];
    assert RequestsOnly([last]) == [last] && RequestsOnly([sweep, last]) == [last];
    assert RequestsOnly(events) == [first, last] && [first, last][1..] == [last];
    assert Answers(map[], rpm, [first, last]) == [true, false];
    assert Monotone([last], late) && Monotone([sweep, last], 0) && Monotone(events, 0);
  }

  lemma SecondIsDenied(rpm: int, at: int)
    requires rpm <= 0 <= at
    ensures !Spend(Refilled(Bucket(rpm - 1, 0), rpm, at)).1
  {
    assert at * rpm <= 0;
  }

  /** Cleanup is unobservable exactly for positive limits. */
  lemma CleanupUnobservableExactly(rpm: int)
    ensures CleanupUnobservable(rpm) <==> 1 <= rpm
  {
    if 1 <= rpm {
      forall events, now | Monotone(events, now)
        ensures Answers(map[], rpm, events) == Answers(map[], rpm, RequestsOnly(events))
      {
        SweepsHidden(map[], map[], rpm, events, now);
      }
    } else {
      CleanupObservable(rpm);
    }
  }

  // ------------------------------------------------------------------ the rate bound

  /** How many of one client's requests a run admits. */
  function Admissions(clients: Clients, rpm: int, events: seq<Event>, client: string): nat
    decreases |events|
  {
    if events == [] then 0
    else
      (if events[0].Request? && events[0].client == client && Allowed(clients, rpm, client, events[0].at).1 then 1
       else 0)
      + Admissions(Next(clients, rpm, events[0]), rpm, events[1..], client)
  }

  lemma {:induction false} SweepsHiddenFromCount(swept: Clients, full: Clients, rpm: int, events: seq<Event>, now: int,
                                                 client: string)
    requires 1 <= rpm && Monotone(events, now) && StaleMissing(swept, full, now) && AllSound(full, rpm, now)
    ensures Admissions(swept, rpm, events, client) == Admissions(full, rpm, RequestsOnly(events), client)
    decreases |events|
  {
    if events != [] {
      var e, rest := events[0], events[1..];
      match e
      case Request(c, t) =>
        RequestHidesSweep(swept, full, rpm, c, now, t);
        RequestKeepsSound(full, rpm, c, now, t);
        SweepsHiddenFromCount(Next(swept, rpm, e), Next(full, rpm, e), rpm, rest, t, client);
        assert ([e] + RequestsOnly(rest))[1..] == RequestsOnly(rest);
      case Sweep(t) =>
        SweepsHiddenFromCount(Swept(swept, t), full, rpm, rest, t, client);
        assert [] + RequestsOnly(rest) == RequestsOnly(rest);
    }
  }

  /** No event of the run is later than end. */
  predicate EndsBy(events: seq<Event>, end: int) {
    forall i :: 0 <= i < |events| ==> events[i].at <= end
  }

  predicate OnlyRequests(events: seq<Event>) {
    forall i :: 0 <= i < |events| ==> events[i].Request?
  }

  /** What a bucket can still admit by some time, in tokens times a minute. */
  function Credit(b: Bucket, rpm: int, end: int): int {
    MINUTE * b.tokens + rpm * (end - b.lastRefill)
  }

  lemma RefillCosts(b: Bucket, rpm: int, now: int, end: int)
    requires 1 <= rpm && Sound(b, rpm, now)
    ensures Credit(Refilled(b, rpm, now), rpm, end) <= Credit(b, rpm, end)
  {
    var k := Earned(now - b.lastRefill, rpm);
    EarnedBounds(now - b.lastRefill, rpm);
    assert rpm * (end - b.lastRefill) == rpm * (end - now) + (now - b.lastRefill) * rpm;
  }

  /** An admission pays for itself out of the credit. */
  lemma RequestCosts(b: Bucket, rpm: int, now: int, end: int)
    requires 1 <= rpm && Sound(b, rpm, now)
    ensures var (c, ok) := Spend(Refilled(b, rpm, now));
      Credit(c, rpm, end) + (if ok then MINUTE else 0) <= Credit(b, rpm, end)
  {
    RefillCosts(b, rpm, now, end);
  }

  /** A client with a bucket is admitted no more often than its credit allows. */
  lemma {:induction false} CreditBounds(clients: Clients, rpm: int, events: seq<Event>, now: int, end: int,
                                        client: string)
    requires 1 <= rpm && Monotone(events, now) && AllSound(clients, rpm, now)
    requires OnlyRequests(events) && EndsBy(events, end) && now <= end && client in clients
    ensures MINUTE * Admissions(clients, rpm, events, client) <= Credit(clients[client], rpm, end)
    decreases |events|
  {
    if events == [] {
      assert rpm * (end - clients[client].lastRefill) >= 0;
    } else {
      var e := events[0];
      NextKeepsSound(clients, rpm, e, now);
      assert EndsBy(events[1..], end) && OnlyRequests(events[1..]);
      CreditBounds(Next(clients, rpm, e), rpm, events[1..], e.at, end, client);
      if e.client == client {
        RequestCosts(clients[client], rpm, e.at, end);
      }
    }
  }

  /** The first request of a window starts from at most rpm tokens; time before the window
      helps by less than one token, and not at all when the client has no bucket yet. */
  lemma FirstRequest(clients: Clients, rpm: int, client: string, now: int, at: int, start: int, end: int)
    requires 1 <= rpm && now <= at && start <= at <= end && AllSound(clients, rpm, now)
    ensures var (after, ok) := Allowed(clients, rpm, client, at);
      && Credit(after[client], rpm, end) + (if ok then MINUTE else 0) < MINUTE * rpm + rpm * (end - start) + MINUTE
      && (client !in clients ==>
           Credit(after[client], rpm, end) + (if ok then MINUTE else 0) <= MINUTE * rpm + rpm * (end - start))
  {
    MoreTime(rpm, end - at, end - start);
    if client in clients {
      var b := clients[client];
      EarnedBounds(at - b.lastRefill, rpm);
      SplitTime(rpm, end - at, at - b.lastRefill);
    }
  }

  lemma MoreTime(rpm: int, x: int, y: int)
    requires 1 <= rpm && x <= y
    ensures rpm * x <= rpm * y
  {
  }

  lemma SplitTime(rpm: int, x: int, y: int)
    ensures rpm * (x + y) == rpm * x + y * rpm
  {
  }

  lemma {:induction false} WindowCredit(clients: Clients, rpm: int, events: seq<Event>, now: int, start: int, end: int,
                                        client: string)
    requires 1 <= rpm && Monotone(events, now) && AllSound(clients, rpm, now) && OnlyRequests(events)
    requires EndsBy(events, end) && start <= end && (events != [] ==> start <= events[0].at)
    ensures MINUTE * Admissions(clients, rpm, events, client) < MINUTE * rpm + rpm * (end - start) + MINUTE
    ensures client !in clients ==>
              MINUTE * Admissions(clients, rpm, events, client) <= MINUTE * rpm + rpm * (end - start)
    decreases |events|
  {
    if events == [] {
      assert rpm * (end - start) >= 0;
    } else {
      var e := events[0];
      NextKeepsSound(clients, rpm, e, now);
      assert EndsBy(events[1..], end) && OnlyRequests(events[1..]);
      if e.client == client {
        FirstRequest(clients, rpm, client, now, e.at, start, end);
        CreditBounds(Next(clients, rpm, e), rpm, events[1..], e.at, end, client);
      } else {
        WindowCredit(Next(clients, rpm, e), rpm, events[1..], e.at, start, end, client);
      }
    }
  }

  lemma {:induction false} RequestsOnlyShape(events: seq<Event>, now: int, start: int, end: int)
    requires Monotone(events, now) && EndsBy(events, end) && start <= now
    ensures var r := RequestsOnly(events);
      OnlyRequests(r) && EndsBy(r, end) && Monotone(r, now) && (r != [] ==> start <= r[0].at)
    decreases |events|
  {
    if events != [] {
      assert EndsBy(events[1..], end);
      RequestsOnlyShape(events[1..], events[0].at, start, end);
      var rest := RequestsOnly(events[1..]);
      if events[0].Request? {
        assert ([events[0]] + rest)[1..] == rest;
      } else {
        assert [] + rest == rest;
      }
    }
  }

  function CeilMinutes(x: int): int {
    -((-x) / MINUTE)
  }

  /** In any window of a run with cleanups at arbitrary times, one client is admitted at most
      rpm times plus the tokens the window's length earns, rounded up; rounded down when the
      client has no bucket at the start of the window. */
  lemma RateBound(before: seq<Event>, window: seq<Event>, rpm: int, now: int, client: string)
    requires 1 <= rpm && window != [] && Monotone(before, now)
    requires Monotone(window, if before == [] then now else before[|before| - 1].at)
    ensures var clients, length := After(map[], rpm, before), window[|window| - 1].at - window[0].at;
      && Admissions(clients, rpm, window, client) <= rpm + CeilMinutes(rpm * length)
      && (client !in clients ==> Admissions(clients, rpm, window, client) <= rpm + rpm * length / MINUTE)
  {
    var clients := After(map[], rpm, before);
    RunKeepsSound(map[], rpm, before, now);
    var start, end := window[0].at, window[|window| - 1].at;
    AllSoundLater(clients, rpm, if before == [] then now else before[|before| - 1].at, start);
    MonotoneEnds(window, start);
    SweepsHiddenFromCount(clients, clients, rpm, window, start, client);
    RequestsOnlyShape(window, start, start, end);
    WindowCredit(clients, rpm, RequestsOnly(window), start, start, end, client);
    Divide(Admissions(clients, rpm, window, client), rpm, rpm * (end - start));
  }

  lemma AllSoundLater(clients: Clients, rpm: int, now: int, later: int)
    requires AllSound(clients, rpm, now) && now <= later
    ensures AllSound(clients, rpm, later)
  {
  }

  lemma {:induction false} MonotoneEnds(events: seq<Event>, now: int)
    requires events != [] && Monotone(events, now)
    ensures EndsBy(events, events[|events| - 1].at) && now <= events[|events| - 1].at
    decreases |events|
  {
    if |events| > 1 {
      MonotoneEnds(events[1..], events[0].at);
      forall i | 0 <= i < |events| ensures events[i].at <= events[|events| - 1].at {
        assert i > 0 ==> events[i] == events[1..][i - 1];
      }
    }
  }

  lemma Divide(n: int, rpm: int, x: int)
    ensures MINUTE * n < MINUTE * rpm + x + MINUTE ==> n <= rpm + CeilMinutes(x)
    ensures MINUTE * n <= MINUTE * rpm + x ==> n <= rpm + x / MINUTE
  {
  }

  // ------------------------------------------------------------------ nobody waits for ever

  predicate Asks(e: Event, client: string) {
    e.Request? && e.client == client
  }

  /** A client without a bucket is admitted when it asks. */
  lemma {:induction false} FreshIsAdmitted(clients: Clients, rpm: int, events: seq<Event>, client: string, i: nat)
    requires client !in clients && i < |events| && Asks(events[i], client)
    ensures Admissions(clients, rpm, events, client) >= 1
    decreases |events|
  {
    if !Asks(events[0], client) {
      FreshIsAdmitted(Next(clients, rpm, events[0]), rpm, events[1..], client, i - 1);
    }
  }

  /** A denied request leaves the bucket as it was, and has earned less than a token. */
  lemma DeniedIsEarly(b: Bucket, rpm: int, now: int)
    requires 1 <= rpm && Sound(b, rpm, now) && !Spend(Refilled(b, rpm, now)).1
    ensures Spend(Refilled(b, rpm, now)).0 == b && rpm * (now - b.lastRefill) < MINUTE
  {
    EarnedBounds(now - b.lastRefill, rpm);
  }

  /** While a client is denied, no token's time has passed since its last refill. */
  lemma {:induction false} DeniedWaits(clients: Clients, rpm: int, events: seq<Event>, now: int, client: string, i: nat)
    requires 1 <= rpm && Monotone(events, now) && AllSound(clients, rpm, now) && client in clients
    requires i < |events| && Asks(events[i], client) && Admissions(clients, rpm, events, client) == 0
    ensures rpm * (events[i].at - clients[client].lastRefill) < MINUTE
    decreases |events|
  {
    var e, next := events[0], Next(clients, rpm, events[0]);
    NextKeepsSound(clients, rpm, e, now);
    if Asks(e, client) {
      DeniedIsEarly(clients[client], rpm, e.at);
    }
    if i > 0 {
      if client in next {
        DeniedWaits(next, rpm, events[1..], e.at, client, i - 1);
      } else {
        FreshIsAdmitted(next, rpm, events[1..], client, i - 1);
      }
    }
  }

  /** Within any stretch of a run in which a client is only ever denied, its requests lie less
      than one token's time apart: who waits that long is admitted. */
  lemma WaitBound(before: seq<Event>, window: seq<Event>, rpm: int, now: int, client: string, i: nat, j: nat)
    requires 1 <= rpm && Monotone(before, now)
    requires Monotone(window, if before == [] then now else before[|before| - 1].at)
    requires i <= j < |window| && Asks(window[i], client) && Asks(window[j], client)
    requires Admissions(After(map[], rpm, before), rpm, window, client) == 0
    ensures rpm * (window[j].at - window[i].at) < MINUTE
  {
    var clients, start := After(map[], rpm, before), if before == [] then now else before[|before| - 1].at;
    RunKeepsSound(map[], rpm, before, now);
    if client in clients {
      DeniedWaits(clients, rpm, window, start, client, j);
      MonotoneAt(window, start, i);
      MoreTime(rpm, window[j].at - window[i].at, window[j].at - clients[client].lastRefill);
    } else {
      FreshIsAdmitted(clients, rpm, window, client, i);
    }
  }

  lemma {:induction false} MonotoneAt(events: seq<Event>, now: int, i: nat)
    requires Monotone(events, now) && i < |events|
    ensures now <= events[i].at
    decreases |events|
  {
    if i > 0 {
      MonotoneAt(events[1..], events[0].at, i - 1);
    }
  }

  /** How often a client asks. */
  function Requests(events: seq<Event>, client: string): nat {
    if events == [] then 0 else (if Asks(events[0], client) then 1 else 0) + Requests(events[1..], client)
  }

  /** With so many tokens in its bucket, or no bucket, a client's next requests are admitted. */
  lemma {:induction false} TokensAdmit(clients: Clients, rpm: int, events: seq<Event>, now: int, client: string)
    requires 1 <= rpm && Monotone(events, now) && AllSound(clients, rpm, now) && OnlyRequests(events)
    requires Requests(events, client) <= if client in clients then clients[client].tokens else rpm
    ensures Admissions(clients, rpm, events, client) == Requests(events, client)
    decreases |events|
  {
    if events != [] {
      NextKeepsSound(clients, rpm, events[0], now);
      TokensAdmit(Next(clients, rpm, events[0]), rpm, events[1..], events[0].at, client);
    }
  }

  /** So are they after a pause in which it has earned them. */
  lemma {:induction false} PauseAdmits(
    clients: Clients, rpm: int, events: seq<Event>, now: int, client: string, pause: int)
    requires 1 <= rpm && Monotone(events, now) && AllSound(clients, rpm, now) && OnlyRequests(events) && 0 <= pause
    requires client in clients && Requests(events, client) <= rpm && MINUTE * Requests(events, client) <= rpm * pause
    requires events != [] ==> clients[client].lastRefill + pause <= events[0].at
    ensures Admissions(clients, rpm, events, client) == Requests(events, client)
    decreases |events|
  {
    if events != [] {
      var e, next := events[0], Next(clients, rpm, events[0]);
      NextKeepsSound(clients, rpm, e, now);
      if Asks(e, client) {
        PauseFills(clients[client], rpm, e.at, pause, Requests(events, client));
        TokensAdmit(next, rpm, events[1..], e.at, client);
      } else {
        PauseAdmits(next, rpm, events[1..], e.at, client, pause);
      }
    }
  }

  lemma PauseFills(b: Bucket, rpm: int, now: int, pause: int, n: nat)
    requires 1 <= rpm && Sound(b, rpm, now) && 0 <= pause && b.lastRefill + pause <= now
    requires 1 <= n <= rpm && MINUTE * n <= rpm * pause
    ensures Refilled(b, rpm, now).tokens >= n
  {
    var k := Earned(now - b.lastRefill, rpm);
    EarnedBounds(now - b.lastRefill, rpm);
    MoreTime(rpm, pause, now - b.lastRefill);
    assert MINUTE * n < MINUTE * (k + 1);
  }

  /** A bucket was last refilled when its client asked. */
  lemma {:induction false} RefilledOnRequest(clients: Clients, rpm: int, events: seq<Event>, client: string)
    requires client in After(clients, rpm, events)
    ensures var at := After(clients, rpm, events)[client].lastRefill;
      || (client in clients && clients[client].lastRefill == at)
      || exists i :: 0 <= i < |events| && Asks(events[i], client) && events[i].at == at
    decreases |events|
  {
    if events != [] {
      var next, at := Next(clients, rpm, events[0]), After(clients, rpm, events)[client].lastRefill;
      RefilledOnRequest(next, rpm, events[1..], client);
      if client in next && next[client].lastRefill == at {
        assert Asks(events[0], client) || (client in clients && clients[client] == next[client]);
      } else {
        var i :| 0 <= i < |events[1..]| && Asks(events[1..][i], client) && events[1..][i].at == at;
        assert events[i + 1] == events[1..][i];
      }
    }
  }

  /** A client that has paused is admitted as often as the pause has earned, up to the limit,
      and one that never asked before up to the limit, whatever is cleaned up meanwhile. */
  lemma BurstIsAdmitted(before: seq<Event>, window: seq<Event>, rpm: int, now: int, client: string, pause: int)
    requires 1 <= rpm && 0 <= pause && window != [] && Monotone(before, now)
    requires Monotone(window, if before == [] then now else before[|before| - 1].at)
    requires forall i :: 0 <= i < |before| && Asks(before[i], client) ==> before[i].at + pause <= window[0].at
    requires Requests(window, client) <= rpm
    requires MINUTE * Requests(window, client) <= rpm * pause
          || forall i :: 0 <= i < |before| ==> !Asks(before[i], client)
    ensures Admissions(After(map[], rpm, before), rpm, window, client) == Requests(window, client)
  {
    var clients, start := After(map[], rpm, before), if before == [] then now else before[|before| - 1].at;
    var asked := RequestsOnly(window);
    RunKeepsSound(map[], rpm, before, now);
    SweepsHiddenFromCount(clients, clients, rpm, window, start, client);
    RequestsKept(window, start, client);
    if client in clients {
      RefilledOnRequest(map[], rpm, before, client);
      PauseAdmits(clients, rpm, asked, start, client, pause);
    } else {
      TokensAdmit(clients, rpm, asked, start, client);
    }
  }

  lemma {:induction false} RequestsKept(events: seq<Event>, now: int, client: string)
    requires Monotone(events, now)
    ensures var r := RequestsOnly(events);
      && Requests(r, client) == Requests(events, client) && OnlyRequests(r) && Monotone(r, now)
      && (r != [] ==> events[0].at <= r[0].at)
    decreases |events|
  {
    if events != [] {
      var rest := RequestsOnly(events[1..]);
      RequestsKept(events[1..], events[0].at, client);
      assert events[0].Request? ==> RequestsOnly(events)[1..] == rest;
      assert events[0].Sweep? ==> RequestsOnly(events) == rest;
      assert rest != [] ==> events[1..] != [] && events[0].at <= events[1..][0].at;
    }
  }
}
