/**
 The per-IP rate limiter of the API, whose clean-up loop forgets addresses idle for five minutes.

 A token is `COST` units and a bucket gains `reqPerMin` units a nanosecond, so that the documented
 rate of `reqPerMin` tokens a minute needs no fractions.  Each critical section reads the clock
 once.  `Trace` gives the answers of a run of requests and clean-ups; class `IpLimiter` makes the
 same steps on its map.
 */
module RateLimit {
  const SECOND := 1_000_000_000
  const COST := 60 * SECOND
  const IDLE := 300 * SECOND

  /** The tokens left in an address's bucket when it was last seen. */
  datatype Entry = Entry(tokens: int, lastSeen: int)

  type Ips = map<string, Entry>

  function Burst(reqPerMin: int): int {
    if reqPerMin / 5 > 10 then reqPerMin / 5 else 10
  }

  function Capacity(reqPerMin: int): int {
    COST * Burst(reqPerMin)
  }

  /** What a bucket gains in `elapsed` nanoseconds; a limit that is not positive gains nothing. */
  function Gain(reqPerMin: int, elapsed: int): int {
    if reqPerMin > 0 then reqPerMin * elapsed else 0
  }

  /** The tokens of `ip` at time `now`: a bucket starts full and never holds more than the burst. */
  function Level(reqPerMin: int, ips: Ips, ip: string, now: int): int {
    if ip !in ips then Capacity(reqPerMin)
    else
      var tokens := ips[ip].tokens + Gain(reqPerMin, now - ips[ip].lastSeen);
      if tokens > Capacity(reqPerMin) then Capacity(reqPerMin) else tokens
  }

  predicate Allows(reqPerMin: int, ips: Ips, ip: string, now: int) {
    Level(reqPerMin, ips, ip, now) >= COST
  }

  function Allow(reqPerMin: int, ips: Ips, ip: string, now: int): Ips {
    var level := Level(reqPerMin, ips, ip, now);
    ips[ip := Entry(if level >= COST then level - COST else level, now)]
  }

  function Cleanup(ips: Ips, now: int): Ips {
    map ip | ip in ips && now - ips[ip].lastSeen <= IDLE :: ips[ip]
  }

  // --- runs --------------------------------------------------------------------

  datatype Event = Request(ip: string, at: int) | Tick(at: int)

  datatype Answer = Answer(ip: string, at: int, allowed: bool)

  /** The answers to a run's requests, by a limiter that evicts on a tick or by one that never does. */
  function Trace(reqPerMin: int, ips: Ips, es: seq<Event>, evicts: bool): seq<Answer>
    decreases |es|
  {
    if es == [] then []
    else
      match es[0]
      case Request(ip, at) =>
        [Answer(ip, at, Allows(reqPerMin, ips, ip, at))] + Trace(reqPerMin, Allow(reqPerMin, ips, ip, at), es[1..], evicts)
      case Tick(at) =>
        Trace(reqPerMin, if evicts then Cleanup(ips, at) else ips, es[1..], evicts)
  }

  /** The clock never goes back, and does not start before `from`. */
  ghost predicate Clock(from: int, es: seq<Event>)
    decreases |es|
  {
    es != [] ==> from <= es[0].at && Clock(es[0].at, es[1..])
  }

  predicate Counts(answer: Answer, ip: string, from: int, to: int) {
    answer.ip == ip && from <= answer.at <= to && answer.allowed
  }

  /** How many of `ip`'s requests with a time in `[from, to]` were allowed. */
  function Allowed(trace: seq<Answer>, ip: string, from: int, to: int): nat {
    if trace == [] then 0
    else (if Counts(trace[0], ip, from, to) then 1 else 0) + Allowed(trace[1..], ip, from, to)
  }

  /** What the first event of a run adds to its trace and to the count. */
  lemma Unfold(reqPerMin: int, ips: Ips, es: seq<Event>, evicts: bool, ip: string, from: int, to: int)
    requires es != []
    ensures es[0].Request? ==>
              var first := Answer(es[0].ip, es[0].at, Allows(reqPerMin, ips, es[0].ip, es[0].at));
              Allowed(Trace(reqPerMin, ips, es, evicts), ip, from, to) ==
              (if Counts(first, ip, from, to) then 1 else 0) +
              Allowed(Trace(reqPerMin, Allow(reqPerMin, ips, es[0].ip, es[0].at), es[1..], evicts), ip, from, to)
  {
    if es[0].Request? {
      var first := Answer(es[0].ip, es[0].at, Allows(reqPerMin, ips, es[0].ip, es[0].at));
      var rest := Trace(reqPerMin, Allow(reqPerMin, ips, es[0].ip, es[0].at), es[1..], evicts);
      assert Trace(reqPerMin, ips, es, evicts) == [first] + rest;
      assert ([first] + rest)[1..] == rest;
    }
  }

  ghost predicate Sane(reqPerMin: int, ips: Ips, now: int) {
    forall ip :: ip in ips ==> 0 <= ips[ip].tokens <= Capacity(reqPerMin) && ips[ip].lastSeen <= now
  }

  lemma GainAdds(reqPerMin: int, a: int, b: int)
    requires 0 <= a && 0 <= b
    ensures Gain(reqPerMin, a + b) == Gain(reqPerMin, a) + Gain(reqPerMin, b)
    ensures 0 <= Gain(reqPerMin, a) <= Gain(reqPerMin, a + b)
  {
  }

  /** As time passes a level rises, by no more than the gain. */
  lemma LevelRises(reqPerMin: int, ips: Ips, ip: string, now: int, later: int)
    requires Sane(reqPerMin, ips, now) && now <= later
    ensures 0 <= Level(reqPerMin, ips, ip, now) <= Level(reqPerMin, ips, ip, later) <= Capacity(reqPerMin)
    ensures Level(reqPerMin, ips, ip, later) <= Level(reqPerMin, ips, ip, now) + Gain(reqPerMin, later - now)
  {
    GainAdds(reqPerMin, later - now, 0);
    if ip in ips { GainAdds(reqPerMin, now - ips[ip].lastSeen, later - now); }
  }

  lemma AllowKeepsSane(reqPerMin: int, ips: Ips, ip: string, now: int, later: int)
    requires Sane(reqPerMin, ips, now) && now <= later
    ensures Sane(reqPerMin, Allow(reqPerMin, ips, ip, later), later)
    ensures Level(reqPerMin, Allow(reqPerMin, ips, ip, later), ip, later) ==
            Level(reqPerMin, ips, ip, later) - (if Allows(reqPerMin, ips, ip, later) then COST else 0)
  {
    LevelRises(reqPerMin, ips, ip, now, later);
  }

  // --- eviction cannot be observed ---------------------------------------------

  /** The evicting map misses only addresses whose bucket has filled up again. */
  ghost predicate Agree(reqPerMin: int, kept: Ips, all: Ips, now: int) {
    && kept.Keys <= all.Keys
    && (forall ip :: ip in kept ==> kept[ip] == all[ip])
    && (forall ip :: ip in all && ip !in kept ==> Level(reqPerMin, all, ip, now) == Capacity(reqPerMin))
  }

  /** Five idle minutes fill any bucket, given at least two requests a minute. */
  lemma IdleFills(reqPerMin: int, ips: Ips, ip: string, now: int)
    requires reqPerMin >= 2 && ip in ips && ips[ip].tokens >= 0 && now - ips[ip].lastSeen > IDLE
    ensures Level(reqPerMin, ips, ip, now) == Capacity(reqPerMin)
  {
    GainAdds(reqPerMin, IDLE, now - ips[ip].lastSeen - IDLE);
  }

  lemma AgreeLater(reqPerMin: int, kept: Ips, all: Ips, now: int, at: int)
    requires Sane(reqPerMin, all, now) && Agree(reqPerMin, kept, all, now) && now <= at
    ensures Agree(reqPerMin, kept, all, at)
  {
    forall ip | ip in all && ip !in kept
      ensures Level(reqPerMin, all, ip, at) == Capacity(reqPerMin)
    {
      LevelRises(reqPerMin, all, ip, now, at);
    }
  }

  lemma AgreeAfterRequest(reqPerMin: int, kept: Ips, all: Ips, ip: string, at: int)
    requires Agree(reqPerMin, kept, all, at)
    ensures Level(reqPerMin, kept, ip, at) == Level(reqPerMin, all, ip, at)
    ensures Agree(reqPerMin, Allow(reqPerMin, kept, ip, at), Allow(reqPerMin, all, ip, at), at)
  {
  }

  lemma AgreeAfterTick(reqPerMin: int, kept: Ips, all: Ips, at: int)
    requires reqPerMin >= 2 && Sane(reqPerMin, all, at) && Agree(reqPerMin, kept, all, at)
    ensures Agree(reqPerMin, Cleanup(kept, at), all, at)
  {
    forall ip | ip in all && ip !in Cleanup(kept, at)
      ensures Level(reqPerMin, all, ip, at) == Capacity(reqPerMin)
    {
      if ip in kept { IdleFills(reqPerMin, all, ip, at); }
    }
  }

  lemma {:induction false} SameAnswers(reqPerMin: int, kept: Ips, all: Ips, now: int, es: seq<Event>)
    requires reqPerMin >= 2 && Clock(now, es) && Sane(reqPerMin, all, now) && Agree(reqPerMin, kept, all, now)
    ensures Trace(reqPerMin, kept, es, true) == Trace(reqPerMin, all, es, false)
    decreases |es|
  {
    if es != [] {
      var at := es[0].at;
      AgreeLater(reqPerMin, kept, all, now, at);
      match es[0]
      case Request(ip, _) =>
        AgreeAfterRequest(reqPerMin, kept, all, ip, at);
        AllowKeepsSane(reqPerMin, all, ip, now, at);
        SameAnswers(reqPerMin, Allow(reqPerMin, kept, ip, at), Allow(reqPerMin, all, ip, at), at, es[1..]);
      case Tick(_) =>
        AgreeAfterTick(reqPerMin, kept, all, at);
        SameAnswers(reqPerMin, Cleanup(kept, at), all, at, es[1..]);
    }
  }

  /** Nobody can tell from the answers that idle addresses are evicted. */
  lemma EvictionUnobservable(reqPerMin: int, from: int, es: seq<Event>)
    requires reqPerMin >= 2 && Clock(from, es)
    ensures Trace(reqPerMin, map[], es, true) == Trace(reqPerMin, map[], es, false)
  {
    SameAnswers(reqPerMin, map[], map[], from, es);
  }

  // --- the number of requests allowed in a window -------------------------------

  /** `count` is paid for by the level at `now` and what is gained until `to`. */
  ghost predicate PaidFor(reqPerMin: int, ips: Ips, now: int, ip: string, from: int, to: int, count: nat) {
    && (now > to ==> count == 0)
    && (from <= now <= to ==> COST * count <= Level(reqPerMin, ips, ip, now) + Gain(reqPerMin, to - now))
    && (now <= from ==> COST * count <= Capacity(reqPerMin) + Gain(reqPerMin, to - from))
  }

  /** What is paid for later is paid for now. */
  lemma PaidEarlier(reqPerMin: int, ips: Ips, now: int, at: int, ip: string, from: int, to: int, count: nat)
    requires Sane(reqPerMin, ips, now) && now <= at && from <= to
    requires PaidFor(reqPerMin, ips, at, ip, from, to, count)
    ensures PaidFor(reqPerMin, ips, now, ip, from, to, count)
  {
    LevelRises(reqPerMin, ips, ip, now, at);
    GainAdds(reqPerMin, to - from, 0);
    if at <= to {
      GainAdds(reqPerMin, at - now, to - at);
      if from <= at { GainAdds(reqPerMin, at - from, to - at); }
    } else if now <= to {
      GainAdds(reqPerMin, to - now, 0);
    }
  }

  /** One request pays for itself. */
  lemma RequestPays(reqPerMin: int, ips: Ips, at: int, who: string, ip: string, from: int, to: int, rest: nat)
    requires Sane(reqPerMin, ips, at) && from <= to
    requires PaidFor(reqPerMin, Allow(reqPerMin, ips, who, at), at, ip, from, to, rest)
    ensures var answer := Answer(who, at, Allows(reqPerMin, ips, who, at));
            PaidFor(reqPerMin, ips, at, ip, from, to, (if Counts(answer, ip, from, to) then 1 else 0) + rest)
  {
    AllowKeepsSane(reqPerMin, ips, who, at, at);
    LevelRises(reqPerMin, ips, ip, at, at);
    assert who != ip ==> Level(reqPerMin, Allow(reqPerMin, ips, who, at), ip, at) == Level(reqPerMin, ips, ip, at);
  }

  /** What a run without eviction allows is paid for. */
  lemma {:induction false} LevelBounds(reqPerMin: int, ips: Ips, now: int, es: seq<Event>, ip: string, from: int, to: int)
    requires Clock(now, es) && Sane(reqPerMin, ips, now) && from <= to
    ensures PaidFor(reqPerMin, ips, now, ip, from, to, Allowed(Trace(reqPerMin, ips, es, false), ip, from, to))
    decreases |es|
  {
    if es == [] {
      LevelRises(reqPerMin, ips, ip, now, now);
      if now <= to { GainAdds(reqPerMin, to - now, 0); }
      GainAdds(reqPerMin, to - from, 0);
    } else {
      var at := es[0].at;
      match es[0] {
      case Request(who, _) =>
        AllowKeepsSane(reqPerMin, ips, who, now, at);
        var ips' := Allow(reqPerMin, ips, who, at);
        LevelBounds(reqPerMin, ips', at, es[1..], ip, from, to);
        RequestPays(reqPerMin, ips, at, who, ip, from, to, Allowed(Trace(reqPerMin, ips', es[1..], false), ip, from, to));
        Unfold(reqPerMin, ips, es, false, ip, from, to);
      case Tick(_) =>
        LevelBounds(reqPerMin, ips, at, es[1..], ip, from, to);
      }
      PaidEarlier(reqPerMin, ips, now, at, ip, from, to, Allowed(Trace(reqPerMin, ips, es, false), ip, from, to));
    }
  }

  /** The burst: a fifth of the rate, and at least ten. */
  lemma BurstIsAFifth(reqPerMin: int, n: int)
    ensures n <= Burst(reqPerMin) <==> n <= reqPerMin / 5 || n <= 10
    ensures Capacity(reqPerMin) == 60_000_000_000 * (if reqPerMin > 50 then reqPerMin / 5 else 10)
  {
  }

  /**
   Across any evictions, `ip` gets at most a fifth of the rate, or ten, and on top the rate times the
   length of the window; times are in nanoseconds, 60,000,000,000 to the minute.
   */
  lemma WindowBound(reqPerMin: int, start: int, es: seq<Event>, ip: string, from: int, to: int)
    requires reqPerMin >= 2 && Clock(start, es) && start <= from <= to
    ensures 60_000_000_000 * Allowed(Trace(reqPerMin, map[], es, true), ip, from, to) <=
            60_000_000_000 * (if reqPerMin > 50 then reqPerMin / 5 else 10) + reqPerMin * (to - from)
  {
    EvictionUnobservable(reqPerMin, start, es);
    LevelBounds(reqPerMin, map[], start, es, ip, from, to);
    BurstIsAFifth(reqPerMin, 0);
  }

  // --- what is allowed ------------------------------------------------------------

  function Repeat(ip: string, at: int, n: nat): seq<Event> {
    if n == 0 then [] else [Request(ip, at)] + Repeat(ip, at, n - 1)
  }

  /** Of n requests at one instant from a fresh address exactly the burst is allowed, at any rate. */
  lemma BurstExactly(reqPerMin: int, ip: string, at: int, n: nat, evicts: bool)
    ensures Allowed(Trace(reqPerMin, map[], Repeat(ip, at, n), evicts), ip, at, at) ==
            if n <= reqPerMin / 5 || n <= 10 then n else if reqPerMin > 50 then reqPerMin / 5 else 10
  {
    BurstIsAFifth(reqPerMin, n);
    var most := Burst(reqPerMin);
    var now := if n <= most then n else most;
    var later := n - now;
    RepeatSplits(ip, at, now, later);
    var left := BurstAllowed(reqPerMin, map[], ip, at, now, Repeat(ip, at, later), evicts, at, at);
    if later > 0 {
      NoneLeft(reqPerMin, left, ip, at, later, evicts);
    } else {
      assert Repeat(ip, at, later) == [];
    }
  }

  lemma {:induction false} RepeatSplits(ip: string, at: int, m: nat, n: nat)
    ensures Repeat(ip, at, m + n) == Repeat(ip, at, m) + Repeat(ip, at, n)
    decreases m
  {
    if m > 0 { RepeatSplits(ip, at, m - 1, n); }
  }

  lemma {:induction false} NoneLeft(reqPerMin: int, ips: Ips, ip: string, at: int, n: nat, evicts: bool)
    requires ip in ips && ips[ip] == Entry(0, at)
    ensures Allowed(Trace(reqPerMin, ips, Repeat(ip, at, n), evicts), ip, at, at) == 0
    decreases n
  {
    if n > 0 {
      assert Gain(reqPerMin, 0) == 0;
      Unfold(reqPerMin, ips, Repeat(ip, at, n), evicts, ip, at, at);
      assert Repeat(ip, at, n)[1..] == Repeat(ip, at, n - 1);
      NoneLeft(reqPerMin, Allow(reqPerMin, ips, ip, at), ip, at, n - 1, evicts);
    }
  }

  /** An address that waits for a whole token between any two of its requests; `last` is no earlier than the one before. */
  predicate Paced(reqPerMin: int, es: seq<Event>, ip: string, last: int)
    decreases |es|
  {
    es != [] ==>
      if es[0].Request? && es[0].ip == ip
      then reqPerMin * (es[0].at - last) >= 60_000_000_000 && Paced(reqPerMin, es[1..], ip, es[0].at)
      else Paced(reqPerMin, es[1..], ip, last)
  }

  predicate AllAllowed(trace: seq<Answer>, ip: string) {
    trace != [] ==> (trace[0].ip == ip ==> trace[0].allowed) && AllAllowed(trace[1..], ip)
  }

  /** Nobody who keeps to the sustained rate is ever denied, whatever others do and whatever is evicted. */
  lemma {:induction false} SustainedRateIsAllowed(
      reqPerMin: int, ips: Ips, now: int, es: seq<Event>, evicts: bool, ip: string, last: int)
    requires reqPerMin >= 1 && Sane(reqPerMin, ips, now) && Clock(now, es)
    requires ip in ips ==> ips[ip].lastSeen <= last
    requires Paced(reqPerMin, es, ip, last)
    ensures AllAllowed(Trace(reqPerMin, ips, es, evicts), ip)
    decreases |es|
  {
    if es != [] {
      match es[0]
      case Request(who, at) =>
        AllowKeepsSane(reqPerMin, ips, who, now, at);
        var ips' := Allow(reqPerMin, ips, who, at);
        var first := Answer(who, at, Allows(reqPerMin, ips, who, at));
        var rest := Trace(reqPerMin, ips', es[1..], evicts);
        assert ([first] + rest)[1..] == rest;
        if who == ip { PacedLevel(reqPerMin, ips, ip, now, at, last); }
        SustainedRateIsAllowed(reqPerMin, ips', at, es[1..], evicts, ip, if who == ip then at else last);
      case Tick(at) =>
        SustainedRateIsAllowed(reqPerMin, if evicts then Cleanup(ips, at) else ips, at, es[1..], evicts, ip, last);
    }
  }

  lemma PacedLevel(reqPerMin: int, ips: Ips, ip: string, now: int, at: int, last: int)
    requires reqPerMin >= 1 && Sane(reqPerMin, ips, now) && (ip in ips ==> ips[ip].lastSeen <= last)
    requires reqPerMin * (at - last) >= 60_000_000_000
    ensures Allows(reqPerMin, ips, ip, at)
  {
    if ip in ips {
      assert reqPerMin * (at - ips[ip].lastSeen) >= reqPerMin * (at - last);
    }
  }

  /** The clean-up forgets exactly the addresses unseen for more than five minutes, and changes no other. */
  lemma EvictsAfterFiveMinutes(ips: Ips, now: int, ip: string)
    ensures ip in Cleanup(ips, now) <==> ip in ips && now - ips[ip].lastSeen <= 300_000_000_000
    ensures ip in Cleanup(ips, now) ==> Cleanup(ips, now)[ip] == ips[ip]
  {
  }

  // --- both fail below two requests a minute -----------------------------------

  /** A burst of requests at once, a clean-up five minutes later, and another burst. */
  function Drained(reqPerMin: int, ip: string): seq<Event> {
    Repeat(ip, 0, Burst(reqPerMin)) + ([Tick(IDLE + 1)] + Repeat(ip, IDLE + 1, Burst(reqPerMin)))
  }

  lemma {:induction false} RepeatKeepsClock(ip: string, at: int, n: nat, from: int, es: seq<Event>)
    requires from <= at && Clock(at, es)
    ensures Clock(from, Repeat(ip, at, n) + es)
    decreases n
  {
    var all := Repeat(ip, at, n) + es;
    if n == 0 {
      assert all == es;
    } else {
      RepeatKeepsClock(ip, at, n - 1, at, es);
      assert all[1..] == Repeat(ip, at, n - 1) + es;
    }
  }

  lemma RepeatCons(ip: string, at: int, n: nat, es: seq<Event>)
    requires n > 0
    ensures Repeat(ip, at, n) + es == [Request(ip, at)] + (Repeat(ip, at, n - 1) + es)
  {
  }

  /** A request that can be paid for is allowed and takes one token. */
  lemma OneAllowed(reqPerMin: int, ips: Ips, ip: string, at: int, rest: seq<Event>, evicts: bool, from: int, to: int)
    requires Sane(reqPerMin, ips, at) && from <= at <= to && COST <= Level(reqPerMin, ips, ip, at)
    ensures var ips' := Allow(reqPerMin, ips, ip, at);
            && Sane(reqPerMin, ips', at)
            && ips'.Keys == ips.Keys + {ip} && ips'[ip] == Entry(Level(reqPerMin, ips, ip, at) - COST, at)
            && Level(reqPerMin, ips', ip, at) == Level(reqPerMin, ips, ip, at) - COST
            && Allowed(Trace(reqPerMin, ips, [Request(ip, at)] + rest, evicts), ip, from, to) ==
               1 + Allowed(Trace(reqPerMin, ips', rest, evicts), ip, from, to)
  {
    AllowKeepsSane(reqPerMin, ips, ip, at, at);
    assert Gain(reqPerMin, 0) == 0;
    assert ([Request(ip, at)] + rest)[1..] == rest;
    Unfold(reqPerMin, ips, [Request(ip, at)] + rest, evicts, ip, from, to);
  }

  /** `n` requests at one instant are all allowed while the bucket lasts. */
  lemma {:induction false} BurstAllowed(reqPerMin: int, ips: Ips, ip: string, at: int, n: nat, es: seq<Event>, evicts: bool, from: int, to: int)
      returns (ips': Ips)
    requires Sane(reqPerMin, ips, at) && from <= at <= to && COST * n <= Level(reqPerMin, ips, ip, at)
    ensures n == 0 ==> ips' == ips
    ensures n > 0 ==> ips'.Keys == ips.Keys + {ip} && ips'[ip] == Entry(Level(reqPerMin, ips, ip, at) - COST * n, at)
    ensures Allowed(Trace(reqPerMin, ips, Repeat(ip, at, n) + es, evicts), ip, from, to) ==
            n + Allowed(Trace(reqPerMin, ips', es, evicts), ip, from, to)
    decreases n
  {
    if n == 0 {
      assert Repeat(ip, at, n) + es == es;
      ips' := ips;
    } else {
      var rest := Repeat(ip, at, n - 1) + es;
      var level := Level(reqPerMin, ips, ip, at);
      assert COST * n == COST * (n - 1) + COST && COST * (n - 1) >= 0;
      OneAllowed(reqPerMin, ips, ip, at, rest, evicts, from, to);
      var ips1 := Allow(reqPerMin, ips, ip, at);
      ips' := BurstAllowed(reqPerMin, ips1, ip, at, n - 1, es, evicts, from, to);
      RepeatCons(ip, at, n, es);
      if n == 1 { assert ips' == ips1; }
    }
  }

  /** With eviction the drained address gets a full bucket back at once. */
  lemma DrainedGetsTwoBursts(reqPerMin: int, ip: string)
    requires reqPerMin < 2
    ensures Clock(0, Drained(reqPerMin, ip))
    ensures Allowed(Trace(reqPerMin, map[], Drained(reqPerMin, ip), true), ip, 0, IDLE + 1) == 2 * Burst(reqPerMin)
  {
    var n := Burst(reqPerMin);
    var again := Repeat(ip, IDLE + 1, n);
    assert again + [] == again;
    RepeatKeepsClock(ip, IDLE + 1, n, IDLE + 1, []);
    assert ([Tick(IDLE + 1)] + again)[1..] == again;
    RepeatKeepsClock(ip, 0, n, 0, [Tick(IDLE + 1)] + again);
    var ips := BurstAllowed(reqPerMin, map[], ip, 0, n, [Tick(IDLE + 1)] + again, true, 0, IDLE + 1);
    var cleaned := Cleanup(ips, IDLE + 1);
    assert cleaned == map[];
    var last := BurstAllowed(reqPerMin, cleaned, ip, IDLE + 1, n, [], true, 0, IDLE + 1);
  }

  ghost predicate Unobservable(reqPerMin: int, es: seq<Event>) {
    Trace(reqPerMin, map[], es, true) == Trace(reqPerMin, map[], es, false)
  }

  ghost predicate WithinBound(reqPerMin: int, es: seq<Event>, ip: string, from: int, to: int) {
    60_000_000_000 * Allowed(Trace(reqPerMin, map[], es, true), ip, from, to) <=
    60_000_000_000 * (if reqPerMin > 50 then reqPerMin / 5 else 10) + if reqPerMin > 0 then reqPerMin * (to - from) else 0
  }

  /** Below two requests a minute both results fail. */
  lemma DrainedSeparates(reqPerMin: int, ip: string)
    requires reqPerMin < 2
    ensures !Unobservable(reqPerMin, Drained(reqPerMin, ip))
    ensures !WithinBound(reqPerMin, Drained(reqPerMin, ip), ip, 0, IDLE + 1)
  {
    DrainedGetsTwoBursts(reqPerMin, ip);
    LevelBounds(reqPerMin, map[], 0, Drained(reqPerMin, ip), ip, 0, IDLE + 1);
  }

  /** Eviction is unobservable, and the window bound holds, exactly from two requests a minute on. */
  lemma EvictionUnobservableIff(reqPerMin: int)
    ensures reqPerMin >= 2 <==> forall es: seq<Event> :: Clock(0, es) ==> Unobservable(reqPerMin, es)
    ensures reqPerMin >= 2 <==>
            forall es: seq<Event>, ip: string, from: int, to: int ::
              Clock(0, es) && 0 <= from <= to ==> WithinBound(reqPerMin, es, ip, from, to)
  {
    if reqPerMin >= 2 {
      forall es: seq<Event> | Clock(0, es)
        ensures Unobservable(reqPerMin, es)
      {
        EvictionUnobservable(reqPerMin, 0, es);
      }
      forall es: seq<Event>, ip: string, from: int, to: int | Clock(0, es) && 0 <= from <= to
        ensures WithinBound(reqPerMin, es, ip, from, to)
      {
        WindowBound(reqPerMin, 0, es, ip, from, to);
      }
    } else {
      DrainedSeparates(reqPerMin, "ip");
      DrainedGetsTwoBursts(reqPerMin, "ip");
    }
  }

  // --- addresses do not affect each other ----------------------------------------

  function Only(trace: seq<Answer>, ip: string): seq<Answer> {
    if trace == [] then []
    else (if trace[0].ip == ip then [trace[0]] else []) + Only(trace[1..], ip)
  }

  function OnlyEvents(es: seq<Event>, ip: string): seq<Event> {
    if es == [] then []
    else (if es[0].Request? && es[0].ip != ip then [] else [es[0]]) + OnlyEvents(es[1..], ip)
  }

  /** The answers to one address are those it would get if it were alone. */
  lemma {:induction false} Isolation(reqPerMin: int, ips: Ips, alone: Ips, es: seq<Event>, evicts: bool, ip: string)
    requires ip in ips <==> ip in alone
    requires ip in ips ==> ips[ip] == alone[ip]
    ensures Only(Trace(reqPerMin, ips, es, evicts), ip) == Only(Trace(reqPerMin, alone, OnlyEvents(es, ip), evicts), ip)
    decreases |es|
  {
    if es != [] {
      var rest := OnlyEvents(es[1..], ip);
      match es[0]
      case Request(who, at) =>
        var ips' := Allow(reqPerMin, ips, who, at);
        var first := Answer(who, at, Allows(reqPerMin, ips, who, at));
        var tail := Trace(reqPerMin, ips', es[1..], evicts);
        assert ([first] + tail)[1..] == tail;
        if who == ip {
          var alone' := Allow(reqPerMin, alone, who, at);
          assert OnlyEvents(es, ip) == [es[0]] + rest && ([es[0]] + rest)[1..] == rest;
          var tail' := Trace(reqPerMin, alone', rest, evicts);
          assert ([first] + tail')[1..] == tail';
          Isolation(reqPerMin, ips', alone', es[1..], evicts, ip);
        } else {
          assert OnlyEvents(es, ip) == rest;
          Isolation(reqPerMin, ips', alone, es[1..], evicts, ip);
        }
      case Tick(at) =>
        assert OnlyEvents(es, ip) == [es[0]] + rest && ([es[0]] + rest)[1..] == rest;
        if evicts {
          Isolation(reqPerMin, Cleanup(ips, at), Cleanup(alone, at), es[1..], evicts, ip);
        } else {
          Isolation(reqPerMin, ips, alone, es[1..], evicts, ip);
        }
    }
  }

  // --- the limiter, updated in place -----------------------------------------------

  class IpLimiter {
    const reqPerMin: int
    var ips: Ips

    constructor (reqPerMin: int)
      ensures this.reqPerMin == reqPerMin && ips == map[]
    {
      this.reqPerMin, this.ips := reqPerMin, map[];
    }

    /** One request: the bucket is created on first sight, refilled, and charged if it can pay. */
    method AllowRequest(ip: string, now: int) returns (allowed: bool)
      modifies this
      ensures allowed == Allows(reqPerMin, old(ips), ip, now)
      ensures ips == Allow(reqPerMin, old(ips), ip, now)
    {
      if ip !in ips {
        ips := ips[ip := Entry(Capacity(reqPerMin), now)];
      }
      var tokens := ips[ip].tokens + Gain(reqPerMin, now - ips[ip].lastSeen);
      if tokens > Capacity(reqPerMin) { tokens := Capacity(reqPerMin); }
      allowed := tokens >= COST;
      if allowed { tokens := tokens - COST; }
      ips := ips[ip := Entry(tokens, now)];
      assert ips == old(ips)[ip := Entry(tokens, now)];
    }

    /** One round of the clean-up loop. */
    method CleanupRound(now: int)
      modifies this
      ensures ips == Cleanup(old(ips), now)
    {
      var todo := ips.Keys;
      while todo != {}
        invariant todo <= ips.Keys <= old(ips).Keys
        invariant forall ip :: ip in ips ==> ips[ip] == old(ips)[ip]
        invariant forall ip :: ip in old(ips) && ip !in todo ==> (ip in ips <==> now - old(ips)[ip].lastSeen <= IDLE)
        decreases todo
      {
        var ip :| ip in todo;
        if now - ips[ip].lastSeen > IDLE {
          ips := ips - {ip};
        }
        todo := todo - {ip};
      }
    }
  }
}
