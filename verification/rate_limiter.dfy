/**
 The fixed-window request limiter and its evictor. `allow` is one atomic step;
 times are in any unit of which MINUTE make a window.
 */
module RateLimiter {

  const MINUTE := 60_000_000_000
  const IDLE := 5 * MINUTE

  datatype Window = Window(start: int, count: nat)

  type Table = map<string, Window>

  /** The window a request at `now` is counted in, before counting it. */
  function Current(t: Table, key: string, now: int): Window {
    if key !in t || now - t[key].start >= MINUTE then Window(now, 0) else t[key]
  }

  predicate Admits(t: Table, key: string, now: int, limit: nat) {
    Current(t, key, now).count < limit
  }

  function Allow(t: Table, key: string, now: int, limit: nat): Table {
    var w := Current(t, key, now);
    t[key := if w.count < limit then w.(count := w.count + 1) else w]
  }

  /** One sweep: entries whose window began more than the idle bound before `at` go. */
  function Evict(t: Table, at: int): Table {
    map k | k in t && at - t[k].start <= IDLE :: t[k]
  }

  class Limiter {
    var entries: Table
    const limit: nat

    constructor (perMinute: int)
      ensures entries == map[]
      ensures limit == if perMinute < 1 then 120 else perMinute
    {
      entries := map[];
      limit := if perMinute < 1 then 120 else perMinute;
    }

    method AllowRequest(key: string, now: int) returns (ok: bool)
      modifies this
      ensures entries == Allow(old(entries), key, now, limit)
      ensures ok == Admits(old(entries), key, now, limit)
    {
      var e: Window;
      if key in entries {
        e := entries[key];
      } else {
        e := Window(now, 0);
      }
      if now - e.start >= MINUTE {
        e := Window(now, 0);
      }
      if e.count >= limit {
        entries := entries[key := e];
        return false;
      }
      entries := entries[key := e.(count := e.count + 1)];
      return true;
    }

    method Sweep(at: int)
      modifies this
      ensures entries == Evict(old(entries), at)
    {
      var rest := entries.Keys;
      while rest != {}
        invariant rest <= old(entries).Keys
        invariant forall k :: k in entries ==> k in old(entries) && entries[k] == old(entries)[k]
        invariant forall k :: k in old(entries) ==>
          (k in entries <==> k in rest || at - old(entries)[k].start <= IDLE)
        decreases |rest|
      {
        var k :| k in rest;
        rest := rest - {k};
        if at - entries[k].start > IDLE {
          entries := entries - {k};
        }
      }
    }
  }

  // ----- Evicting changes no answer -----

  datatype Step = Request(key: string, now: int) | Tick(at: int)

  function Later(a: int, b: int): int {
    if a > b then a else b
  }

  /**
   Requests and sweeps come under a clock that does not run backwards. A sweep
   may come at any time, and may use a tick that waited while requests passed it.
   */
  predicate InOrder(clock: int, steps: seq<Step>)
    decreases |steps|
  {
    steps == []
    || match steps[0]
       case Request(_, now) => clock <= now && InOrder(now, steps[1..])
       case Tick(at) => InOrder(Later(clock, at), steps[1..])
  }

  /** The answers of the limiter that evicts, or with `evicting` off of one that never does. */
  function Answers(t: Table, limit: nat, steps: seq<Step>, evicting: bool): seq<bool>
    decreases |steps|
  {
    if steps == [] then []
    else match steps[0]
      case Request(key, now) =>
        [Admits(t, key, now, limit)] + Answers(Allow(t, key, now, limit), limit, steps[1..], evicting)
      case Tick(at) => Answers(if evicting then Evict(t, at) else t, limit, steps[1..], evicting)
  }

  /** The small table agrees with the full one where it has an entry; what it lacks has run out. */
  ghost predicate Trimmed(small: Table, full: Table, clock: int) {
    && (forall k :: k in small ==> k in full && full[k] == small[k])
    && (forall k :: k in full && k !in small ==> clock - full[k].start > IDLE)
  }

  /** A request finds the same window in both tables, and leaves them agreeing. */
  lemma RequestTrimmed(small: Table, full: Table, clock: int, limit: nat, key: string, now: int)
    requires Trimmed(small, full, clock) && clock <= now
    ensures Current(small, key, now) == Current(full, key, now)
    ensures Trimmed(Allow(small, key, now, limit), Allow(full, key, now, limit), now)
  {
  }

  lemma SweepTrimmed(small: Table, full: Table, clock: int, at: int)
    requires Trimmed(small, full, clock)
    ensures Trimmed(Evict(small, at), full, Later(clock, at))
  {
  }

  lemma {:induction false} TrimmedAnswersAlike(small: Table, full: Table, clock: int, limit: nat, steps: seq<Step>)
    requires Trimmed(small, full, clock) && InOrder(clock, steps)
    ensures Answers(small, limit, steps, true) == Answers(full, limit, steps, false)
    decreases |steps|
  {
    if steps != [] {
      match steps[0] {
        case Request(key, now) =>
          RequestTrimmed(small, full, clock, limit, key, now);
          TrimmedAnswersAlike(Allow(small, key, now, limit), Allow(full, key, now, limit), now, limit, steps[1..]);
        case Tick(at) =>
          SweepTrimmed(small, full, clock, at);
          TrimmedAnswersAlike(Evict(small, at), full, Later(clock, at), limit, steps[1..]);
      }
    }
  }

  /** For every run of requests and sweeps: the bounded map answers as one that keeps every key. */
  lemma EvictorInvisible(clock: int, limit: nat, steps: seq<Step>)
    requires InOrder(clock, steps)
    ensures Answers(map[], limit, steps, true) == Answers(map[], limit, steps, false)
  {
    TrimmedAnswersAlike(map[], map[], clock, limit, steps);
  }

  // ----- How many requests any interval admits -----

  /** Requests of one key admitted at times from `a` to `b`, both included. */
  function Admitted(t: Table, limit: nat, steps: seq<Step>, key: string, a: int, b: int): nat
    decreases |steps|
  {
    if steps == [] then 0
    else match steps[0]
      case Tick(at) => Admitted(Evict(t, at), limit, steps[1..], key, a, b)
      case Request(k, now) =>
        (if k == key && a <= now <= b && Admits(t, k, now, limit) then 1 else 0)
        + Admitted(Allow(t, k, now, limit), limit, steps[1..], key, a, b)
  }

  /** Windows that can still begin after one that began at `start`, by time b. */
  function LaterWindows(start: int, b: int): nat {
    if b < start then 0 else (b - start) / MINUTE
  }

  lemma LaterWindowsDrop(start: int, now: int, b: int)
    requires start + MINUTE <= now <= b
    ensures LaterWindows(now, b) + 1 <= LaterWindows(start, b)
  {
  }

  /** What a key can still be admitted, up to time b, given its window: the room left, and each later window's limit. */
  function Room(w: Window, limit: nat, b: int): int {
    limit - w.count + limit * LaterWindows(w.start, b)
  }

  lemma RoomDrops(w: Window, limit: nat, now: int, b: int)
    requires w.count <= limit && w.start + MINUTE <= now <= b
    ensures Room(Window(now, 0), limit, b) <= Room(w, limit, b)
  {
    LaterWindowsDrop(w.start, now, b);
    var more, fewer := LaterWindows(w.start, b), LaterWindows(now, b);
    assert limit * more >= limit * (fewer + 1) == limit * fewer + limit;
  }

  ghost predicate Bounded(t: Table, limit: nat) {
    forall k :: k in t ==> t[k].count <= limit
  }

  /** From an open window on, admissions stay within its room. Evicting is no help: see EvictorInvisible. */
  lemma {:induction false} AdmittedWithinRoom(t: Table, limit: nat, steps: seq<Step>, key: string, a: int, b: int,
                                              clock: int)
    requires Bounded(t, limit) && InOrder(clock, steps) && key in t
    requires forall k :: 0 <= k < |steps| ==> steps[k].Request?
    ensures Admitted(t, limit, steps, key, a, b) <= Room(t[key], limit, b)
    decreases |steps|
  {
    assert limit * LaterWindows(t[key].start, b) >= 0;
    if steps != [] {
      var now := steps[0].now;
      var t' := Allow(t, steps[0].key, now, limit);
      AdmittedWithinRoom(t', limit, steps[1..], key, a, b, now);
      if steps[0].key == key {
        if now <= b && now - t[key].start >= MINUTE {
          RoomDrops(t[key], limit, now, b);
        } else if now > b {
          NothingAfter(t', limit, steps[1..], key, a, b, now);
        }
      }
    }
  }

  lemma {:induction false} NothingAfter(t: Table, limit: nat, steps: seq<Step>, key: string, a: int, b: int, clock: int)
    requires InOrder(clock, steps) && clock > b
    ensures Admitted(t, limit, steps, key, a, b) == 0
    decreases |steps|
  {
    if steps != [] {
      match steps[0] {
        case Request(k, now) => NothingAfter(Allow(t, k, now, limit), limit, steps[1..], key, a, b, now);
        case Tick(at) => NothingAfter(Evict(t, at), limit, steps[1..], key, a, b, Later(clock, at));
      }
    }
  }

  /** Windows of a minute that fit in `span`, rounded up. */
  function CeilMinutes(span: nat): nat {
    (span + MINUTE - 1) / MINUTE
  }

  /** A window that can still admit inside the interval leaves room for no more than the bound. */
  lemma RoomInInterval(w: Window, limit: nat, a: int, span: nat)
    requires w.count <= limit && a - MINUTE < w.start
    ensures Room(w, limit, a + span) + w.count <= limit * (CeilMinutes(span) + 1)
  {
    var later, ceil := LaterWindows(w.start, a + span), CeilMinutes(span);
    assert later <= ceil;
    assert limit * later <= limit * ceil;
    assert limit * (ceil + 1) == limit * ceil + limit;
  }

  lemma {:induction false} RequestsBound(t: Table, limit: nat, steps: seq<Step>, key: string, a: int, span: nat,
                                         clock: int)
    requires Bounded(t, limit) && InOrder(clock, steps)
    requires forall k :: 0 <= k < |steps| ==> steps[k].Request?
    ensures Admitted(t, limit, steps, key, a, a + span) <= limit * (CeilMinutes(span) + 1)
    decreases |steps|
  {
    var b := a + span;
    if steps != [] {
      var now := steps[0].now;
      var t' := Allow(t, steps[0].key, now, limit);
      if now > b {
        NothingAfter(t', limit, steps[1..], key, a, b, now);
        assert limit * (CeilMinutes(span) + 1) >= 0;
      } else if steps[0].key == key && now >= a {
        var w := Current(t, key, now);
        AdmittedWithinRoom(t', limit, steps[1..], key, a, b, now);
        RoomInInterval(w, limit, a, span);
      } else {
        RequestsBound(t', limit, steps[1..], key, a, span, now);
      }
    }
  }

  function Requests(steps: seq<Step>): (r: seq<Step>)
    ensures forall k :: 0 <= k < |r| ==> r[k].Request?
    decreases |steps|
  {
    if steps == [] then [] else (if steps[0].Request? then [steps[0]] else []) + Requests(steps[1..])
  }

  /** Requests in order from some time on are in order from any earlier time. */
  lemma InOrderFromEarlier(earlier: int, clock: int, requests: seq<Step>)
    requires earlier <= clock && InOrder(clock, requests)
    requires forall k :: 0 <= k < |requests| ==> requests[k].Request?
    ensures InOrder(earlier, requests)
  {
  }

  /** An idle client's entry goes, and its next request is answered as if it had stayed. */
  lemma IdleClientEvicted()
    ensures var steps := [Request("a", 0), Tick(6 * MINUTE), Request("a", 7 * MINUTE)];
      && InOrder(0, steps)
      && "a" !in Evict(Allow(map[], "a", 0, 1), 6 * MINUTE)
      && Answers(map[], 1, steps, true) == [true, true]
  {
    var steps := [Request("a", 0), Tick(6 * MINUTE), Request("a", 7 * MINUTE)];
    assert steps[1..] == [Tick(6 * MINUTE), Request("a", 7 * MINUTE)];
    assert steps[1..][1..] == [Request("a", 7 * MINUTE)] && steps[1..][1..][1..] == [];
    var t := Evict(Allow(map[], "a", 0, 1), 6 * MINUTE);
    assert InOrder(6 * MINUTE, [Request("a", 7 * MINUTE)]);
    assert InOrder(0, [Tick(6 * MINUTE), Request("a", 7 * MINUTE)]);
    assert Answers(t, 1, [Request("a", 7 * MINUTE)], true)
        == [true] + Answers(Allow(t, "a", 7 * MINUTE, 1), 1, [], true);
  }

  /** Sweeps change no count: the small table admits what the full one admits on the requests alone. */
  lemma {:induction false} SweepsAdmitAlike(small: Table, full: Table, clock: int, limit: nat, steps: seq<Step>,
                                            key: string, a: int, b: int)
    requires Trimmed(small, full, clock) && InOrder(clock, steps)
    ensures InOrder(clock, Requests(steps))
    ensures Admitted(small, limit, steps, key, a, b) == Admitted(full, limit, Requests(steps), key, a, b)
    decreases |steps|
  {
    if steps != [] {
      match steps[0] {
        case Request(k, now) =>
          RequestTrimmed(small, full, clock, limit, k, now);
          assert Requests(steps)[1..] == Requests(steps[1..]);
          SweepsAdmitAlike(Allow(small, k, now, limit), Allow(full, k, now, limit), now, limit, steps[1..], key, a, b);
        case Tick(at) =>
          SweepTrimmed(small, full, clock, at);
          assert Requests(steps) == Requests(steps[1..]);
          SweepsAdmitAlike(Evict(small, at), full, Later(clock, at), limit, steps[1..], key, a, b);
          InOrderFromEarlier(clock, Later(clock, at), Requests(steps));
      }
    }
  }

  /**
   On every run, any interval of length `span` admits a key at most
   limit * (ceil(span / minute) + 1) times.
   */
  lemma AdmissionBound(clock: int, limit: nat, steps: seq<Step>, key: string, a: int, span: nat)
    requires InOrder(clock, steps)
    ensures Admitted(map[], limit, steps, key, a, a + span)
         <= limit * ((span + 59_999_999_999) / 60_000_000_000 + 1)
  {
    SweepsAdmitAlike(map[], map[], clock, limit, steps, key, a, a + span);
    RequestsBound(map[], limit, Requests(steps), key, a, span, clock);
  }

  // ----- The limit is given in full -----

  /** The table a run leaves behind. */
  function After(t: Table, limit: nat, steps: seq<Step>): Table
    decreases |steps|
  {
    if steps == [] then t
    else match steps[0]
      case Request(key, now) => After(Allow(t, key, now, limit), limit, steps[1..])
      case Tick(at) => After(Evict(t, at), limit, steps[1..])
  }

  function Clock(clock: int, steps: seq<Step>): int
    decreases |steps|
  {
    if steps == [] then clock
    else match steps[0]
      case Request(_, now) => Clock(now, steps[1..])
      case Tick(at) => Clock(Later(clock, at), steps[1..])
  }

  /** What one step admits of a key at times from a to b. */
  function AdmittedBy(t: Table, limit: nat, step: Step, key: string, a: int, b: int): nat {
    if step.Request? && step.key == key && a <= step.now <= b && Admits(t, key, step.now, limit) then 1 else 0
  }

  lemma {:induction false} LastStep(t: Table, clock: int, limit: nat, steps: seq<Step>, key: string, a: int, b: int)
    requires steps != []
    ensures var n := |steps| - 1;
      var before := After(t, limit, steps[..n]);
      && After(t, limit, steps) == After(before, limit, [steps[n]])
      && Clock(clock, steps) == Clock(Clock(clock, steps[..n]), [steps[n]])
      && (InOrder(clock, steps) ==> InOrder(clock, steps[..n]) && InOrder(Clock(clock, steps[..n]), [steps[n]]))
      && Admitted(t, limit, steps, key, a, b)
         == Admitted(t, limit, steps[..n], key, a, b) + AdmittedBy(before, limit, steps[n], key, a, b)
    decreases |steps|
  {
    var n := |steps| - 1;
    if n == 0 {
      assert steps == [steps[0]] && steps[1..] == [];
    } else {
      assert steps[1..][..n - 1] == steps[..n][1..];
      match steps[0] {
        case Request(k, now) => LastStep(Allow(t, k, now, limit), now, limit, steps[1..], key, a, b);
        case Tick(at) => LastStep(Evict(t, at), Later(clock, at), limit, steps[1..], key, a, b);
      }
    }
  }

  /** An open window has counted no more than was admitted since it began. */
  lemma {:induction false} CountsAdmitted(clock: int, limit: nat, steps: seq<Step>, key: string, b: int)
    requires InOrder(clock, steps) && Clock(clock, steps) <= b
    requires key in After(map[], limit, steps)
    ensures var w := After(map[], limit, steps)[key];
      w.start <= Clock(clock, steps) && w.count <= Admitted(map[], limit, steps, key, w.start, b)
    decreases |steps|
  {
    if steps != [] {
      var n := |steps| - 1;
      var before, step := After(map[], limit, steps[..n]), steps[n];
      var w := After(map[], limit, steps)[key];
      LastStep(map[], clock, limit, steps, key, w.start, b);
      LastTable(before, Clock(clock, steps[..n]), limit, step);
      if key in before && !(step.Request? && step.key == key && step.now - before[key].start >= MINUTE) {
        CountsAdmitted(clock, limit, steps[..n], key, b);
      }
    }
  }

  lemma LastTable(t: Table, clock: int, limit: nat, step: Step)
    ensures After(t, limit, [step])
         == if step.Request? then Allow(t, step.key, step.now, limit) else Evict(t, step.at)
    ensures Clock(clock, [step]) == if step.Request? then step.now else Later(clock, step.at)
    ensures InOrder(clock, [step]) <==> (step.Request? ==> clock <= step.now)
  {
    assert [step][1..] == [];
  }

  lemma {:induction false} WiderAdmitsMore(t: Table, limit: nat, steps: seq<Step>, key: string, a: int, a': int, b: int)
    requires a' <= a
    ensures Admitted(t, limit, steps, key, a, b) <= Admitted(t, limit, steps, key, a', b)
    decreases |steps|
  {
    if steps != [] {
      match steps[0] {
        case Request(k, now) => WiderAdmitsMore(Allow(t, k, now, limit), limit, steps[1..], key, a, a', b);
        case Tick(at) => WiderAdmitsMore(Evict(t, at), limit, steps[1..], key, a, a', b);
      }
    }
  }

  /**
   On every run: a request is refused only after the key has been admitted its
   whole limit in the minute up to and including now.
   */
  lemma RefusedOnlyAtTheLimit(clock: int, limit: nat, steps: seq<Step>, key: string, now: int)
    requires InOrder(clock, steps) && Clock(clock, steps) <= now
    requires !Admits(After(map[], limit, steps), key, now, limit)
    ensures Admitted(map[], limit, steps, key, now - 60_000_000_000 + 1, now) >= limit
  {
    var t := After(map[], limit, steps);
    if limit > 0 {
      CountsAdmitted(clock, limit, steps, key, now);
      WiderAdmitsMore(map[], limit, steps, key, t[key].start, now - 60_000_000_000 + 1, now);
    }
  }

  function RequestsOf(steps: seq<Step>, key: string): nat {
    if steps == [] then 0 else RequestsOf(steps[1..], key) + if steps[0].Request? && steps[0].key == key then 1 else 0
  }

  lemma {:induction false} AdmittedAmongRequests(t: Table, limit: nat, steps: seq<Step>, key: string, a: int, b: int)
    ensures Admitted(t, limit, steps, key, a, b) <= RequestsOf(steps, key)
    decreases |steps|
  {
    if steps != [] {
      match steps[0] {
        case Request(k, now) => AdmittedAmongRequests(Allow(t, k, now, limit), limit, steps[1..], key, a, b);
        case Tick(at) => AdmittedAmongRequests(Evict(t, at), limit, steps[1..], key, a, b);
      }
    }
  }

  /** So the first `limit` requests of a key are all admitted, whatever other keys do. */
  lemma FirstRequestsAdmitted(clock: int, limit: nat, steps: seq<Step>, key: string, now: int)
    requires InOrder(clock, steps) && Clock(clock, steps) <= now
    requires RequestsOf(steps, key) < limit
    ensures Admits(After(map[], limit, steps), key, now, limit)
  {
    if !Admits(After(map[], limit, steps), key, now, limit) {
      RefusedOnlyAtTheLimit(clock, limit, steps, key, now);
      AdmittedAmongRequests(map[], limit, steps, key, now - 60_000_000_000 + 1, now);
    }
  }
}
