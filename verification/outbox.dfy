/**
 The transactional outbox: rows are claimed under a one-second lease, sent to
 the broker, and marked. Publishers run side by side and may stop anywhere.
 Times are milliseconds.
 */
module Outbox {
  import opened Int64

  const LEASE := 1000
  const MAX_BACKOFF_NS := 300_000_000_000
  const MAX_BACKOFF := 300_000

  // ----- Backoff -----

  function Pow2(n: nat): (r: nat)
    ensures r >= 1
  {
    if n == 0 then 1 else 2 * Pow2(n - 1)
  }

  /** `time.Duration(math.Pow(2, n)) * time.Second`, the int64 product as Go computes it. */
  function Product(n: nat): int {
    Wrap(Pow2(n) * 1_000_000_000)
  }

  /**
   backoffFor in nanoseconds. From 63 attempts on Go leaves the float
   conversion to the platform; the value here is the one amd64 gives.
   */
  function BackoffNanos(attempts: int): int {
    Cap(Product(if attempts < 1 then 1 else attempts))
  }

  function Cap(d: int): int {
    if d > MAX_BACKOFF_NS then MAX_BACKOFF_NS else d
  }

  /** What MarkFailed adds to the clock: Duration.Milliseconds. */
  function BackoffMillis(attempts: int): int {
    TruncDiv(BackoffNanos(attempts), 1_000_000)
  }

  /** The attempt counts whose product does not wrap below zero. */
  predicate Faithful(attempts: int) {
    attempts <= 33 || attempts in {37, 41, 42, 45, 47, 50, 51, 53}
  }

  lemma Doubling(n: nat)
    ensures Product(n + 1) == Wrap(2 * Product(n))
  {
    var x := Pow2(n) * 1_000_000_000;
    WrapMovesByTurns(x);
    var k :| Wrap(x) == x - k * TWO_64;
    assert 2 * x == 2 * Product(n) + (2 * k) * TWO_64;
    WrapPeriodic(2 * Product(n), 2 * k);
  }

  lemma Pow2Small()
    ensures Pow2(8) == 256 && Pow2(9) == 512
  {
    assert Pow2(4) == 16;
  }

  lemma {:induction false} Pow2Grows(m: nat, n: nat)
    requires m <= n
    ensures Pow2(m) <= Pow2(n)
  {
    if m < n {
      Pow2Grows(m, n - 1);
    }
  }

  lemma Pow2At33()
    ensures Pow2(33) == 8_589_934_592
  {
    Pow2Small();
    assert Pow2(12) == 8 * Pow2(9);
    assert Pow2(15) == 8 * Pow2(12);
    assert Pow2(18) == 8 * Pow2(15);
    assert Pow2(21) == 8 * Pow2(18);
    assert Pow2(24) == 8 * Pow2(21);
    assert Pow2(27) == 8 * Pow2(24);
    assert Pow2(30) == 8 * Pow2(27);
    assert Pow2(33) == 8 * Pow2(30);
  }

  /** Doubling an int64, the overflow written out. */
  function Doubled(p: int): int {
    if 2 * p > MAX then 2 * p - TWO_64 else if 2 * p < -MAX - 1 then 2 * p + TWO_64 else 2 * p
  }

  /** From 33 attempts on each product is the last one doubled. */
  function Turned(n: nat): int {
    if n <= 33 then 8_589_934_592_000_000_000 else Doubled(Turned(n - 1))
  }

  lemma {:induction false} ProductTurns(n: nat)
    requires n >= 33
    ensures Product(n) == Turned(n)
  {
    if n == 33 {
      Pow2At33();
    } else {
      ProductTurns(n - 1);
      Doubling(n - 1);
    }
  }

  lemma TurnedFrom34()
    ensures Turned(34) == -1266874889709551616
    ensures Turned(35) == -2533749779419103232
    ensures Turned(36) == -5067499558838206464
    ensures Turned(37) == 8311744956033138688
    ensures Turned(38) == -1823254161643274240
    ensures Turned(39) == -3646508323286548480
  {
  }

  lemma TurnedFrom40()
    ensures Turned(40) == -7293016646573096960
    ensures Turned(41) == 3860710780563357696
    ensures Turned(42) == 7721421561126715392
    ensures Turned(43) == -3003900951456120832
    ensures Turned(44) == -6007801902912241664
    ensures Turned(45) == 6431140267885068288
    ensures Turned(46) == -5584463537939415040
  {
    TurnedFrom34();
  }

  lemma TurnedFrom47()
    ensures Turned(47) == 7277816997830721536
    ensures Turned(48) == -3891110078048108544
    ensures Turned(49) == -7782220156096217088
    ensures Turned(50) == 2882303761517117440
    ensures Turned(51) == 5764607523034234880
    ensures Turned(52) == -6917529027641081856
    ensures Turned(53) == 4611686018427387904
    ensures Turned(54) == -9223372036854775808
    ensures Turned(55) == 0
  {
    TurnedFrom40();
  }

  /** Past 54 attempts every bit of the product is shifted out. */
  lemma {:induction false} ProductVanishes(n: nat)
    requires n >= 55
    ensures Product(n) == 0
  {
    if n == 55 {
      ProductTurns(55);
      TurnedFrom47();
    } else {
      ProductVanishes(n - 1);
      Doubling(n - 1);
    }
  }

  /** The delay in milliseconds, for a product in nanoseconds that is a small power or far from zero. */
  lemma CappedMillis(d: int)
    ensures TruncDiv(Cap(d), 1_000_000) <= MAX_BACKOFF
    ensures d >= 2_000_000_000 ==> TruncDiv(Cap(d), 1_000_000) >= 2000
    ensures d <= 0 ==> TruncDiv(Cap(d), 1_000_000) <= 0
    ensures d <= -1_000_000 ==> TruncDiv(Cap(d), 1_000_000) < 0
  {
  }

  lemma ProductBelowWrap(n: nat)
    requires 1 <= n <= 33
    ensures Product(n) >= 2_000_000_000
  {
    Pow2At33();
    Pow2Grows(1, n);
    Pow2Grows(n, 33);
  }

  lemma TurnedSign(n: nat)
    requires 34 <= n <= 54
    ensures if Faithful(n) then Turned(n) >= 2_000_000_000 else Turned(n) <= -1_000_000
  {
    TurnedFrom34();
    TurnedFrom40();
    TurnedFrom47();
  }

  lemma ProductAboveWrap(n: nat)
    requires 34 <= n <= 54
    ensures if Faithful(n) then Product(n) >= 2_000_000_000 else Product(n) <= -1_000_000
  {
    ProductTurns(n);
    TurnedSign(n);
  }

  /**
   The documented range, two seconds to five minutes, holds for exactly the
   faithful attempt counts; 34 is the first that fails.
   */
  lemma BackoffInRangeExactly(attempts: int)
    ensures 2000 <= BackoffMillis(attempts) <= 300_000 <==> Faithful(attempts)
    ensures BackoffMillis(attempts) <= 300_000
  {
    var n := if attempts < 1 then 1 else attempts;
    CappedMillis(Product(n));
    if n >= 55 {
      ProductVanishes(n);
    } else if n >= 34 {
      ProductAboveWrap(n);
    } else {
      ProductBelowWrap(n);
    }
  }

  lemma NegativeAt34()
    ensures BackoffMillis(34) < 0
  {
    ProductAboveWrap(34);
    CappedMillis(Product(34));
  }

  /** Below the wrap the delay is two to the attempts in seconds, capped at five minutes. */
  lemma BackoffDoubles(attempts: int)
    requires 1 <= attempts <= 33
    ensures BackoffMillis(attempts) == if Pow2(attempts) <= 300 then 1000 * Pow2(attempts) else 300_000
  {
    Pow2At33();
    Pow2Grows(attempts, 33);
  }

  // ----- The table and its publishers -----

  /** What happened to a row, beyond what the table's columns remember. */
  datatype Trace = Trace(claims: seq<int>, delivered: set<nat>, deliveries: nat, touched: int)

  datatype Row<E> = Row(event: E, availableAt: int, attempts: nat, dispatched: bool, trace: Trace)

  /** One claim of one row, held by some publisher: the row's id and its attempts count as returned. */
  datatype Ticket = Ticket(id: nat, attempt: nat)

  datatype Phase = Claimed | Sent | Refused

  datatype State<E> = State(now: int, rows: seq<Row<E>>, tickets: map<Ticket, Phase>)

  /**
   Broker outcomes are two booleans: whether it took the message, and whether
   the publisher heard so. Abandon is a publisher that stops, or whose mark
   statement fails.
   */
  datatype Step<E> =
    | Tick(elapsed: nat)
    | Enqueue(event: E)
    | Claim(id: nat)
    | Dispatch(ticket: Ticket, accepted: bool, heard: bool)
    | Mark(ticket: Ticket)
    | Abandon(ticket: Ticket)

  function Initial<E>(now: int): State<E> {
    State(now, [], map[])
  }

  predicate Due<E>(s: State<E>, id: nat) {
    id < |s.rows| && !s.rows[id].dispatched && s.rows[id].availableAt <= s.now
  }

  function ClaimRow<E>(r: Row<E>, now: int): Row<E> {
    r.(attempts := r.attempts + 1, availableAt := now + LEASE,
       trace := r.trace.(claims := r.trace.claims + [now], touched := now))
  }

  function MarkRow<E>(r: Row<E>, now: int, attempt: nat, sent: bool): Row<E> {
    if sent then r.(dispatched := true, trace := r.trace.(touched := now))
    else r.(availableAt := now + BackoffMillis(attempt), trace := r.trace.(touched := now))
  }

  /** A step that is not enabled leaves the state alone. */
  function Apply<E>(s: State<E>, step: Step<E>): State<E> {
    match step
    case Tick(elapsed) => s.(now := s.now + elapsed)
    case Enqueue(e) => s.(rows := s.rows + [Row(e, s.now, 0, false, Trace([], {}, 0, s.now))])
    case Claim(id) =>
      if !Due(s, id) then s
      else
        var r := ClaimRow(s.rows[id], s.now);
        s.(rows := s.rows[id := r], tickets := s.tickets[Ticket(id, r.attempts) := Claimed])
    case Dispatch(t, accepted, heard) =>
      if t !in s.tickets || s.tickets[t] != Claimed || t.id >= |s.rows| then s
      else
        var r := s.rows[t.id];
        var r' := if accepted
                  then r.(trace := r.trace.(delivered := r.trace.delivered + {t.attempt},
                                            deliveries := r.trace.deliveries + 1))
                  else r;
        s.(rows := s.rows[t.id := r'], tickets := s.tickets[t := if accepted && heard then Sent else Refused])
    case Mark(t) =>
      if t !in s.tickets || s.tickets[t] == Claimed || t.id >= |s.rows| then s
      else s.(rows := s.rows[t.id := MarkRow(s.rows[t.id], s.now, t.attempt, s.tickets[t] == Sent)],
              tickets := s.tickets - {t})
    case Abandon(t) => s.(tickets := s.tickets - {t})
  }

  function Run<E>(s: State<E>, steps: seq<Step<E>>): State<E>
    decreases |steps|
  {
    if steps == [] then s else Run(Apply(s, steps[0]), steps[1..])
  }

  lemma {:induction false} RunAppend<E>(s: State<E>, a: seq<Step<E>>, b: seq<Step<E>>)
    ensures Run(s, a + b) == Run(Run(s, a), b)
    decreases |a|
  {
    if a == [] {
      assert a + b == b;
    } else {
      assert (a + b)[1..] == a[1..] + b;
      RunAppend(Apply(s, a[0]), a[1..], b);
    }
  }

  // ----- What every reachable state satisfies -----

  ghost predicate RowSound<E>(r: Row<E>, now: int) {
    && r.attempts == |r.trace.claims|
    && (forall k :: k in r.trace.delivered ==> 1 <= k <= r.attempts)
    && |r.trace.delivered| == r.trace.deliveries
    && (r.dispatched ==> r.trace.delivered != {})
    && r.availableAt <= r.trace.touched + MAX_BACKOFF
    && r.trace.touched <= now
    && (forall i :: 0 <= i < |r.trace.claims| ==> r.trace.claims[i] <= now)
  }

  ghost predicate TicketSound<E>(s: State<E>, t: Ticket) {
    && t.id < |s.rows|
    && 1 <= t.attempt <= s.rows[t.id].attempts
    && (t in s.tickets && s.tickets[t] == Claimed ==> t.attempt !in s.rows[t.id].trace.delivered)
    && (t in s.tickets && s.tickets[t] == Sent ==> s.rows[t.id].trace.delivered != {})
  }

  ghost predicate Sound<E>(s: State<E>) {
    && (forall i :: 0 <= i < |s.rows| ==> RowSound(s.rows[i], s.now))
    && (forall t :: t in s.tickets ==> TicketSound(s, t))
  }

  /** A step changes one row and one ticket; the rest stay sound if the row only grows. */
  lemma OthersSound<E>(s: State<E>, s': State<E>, id: nat, t: Ticket)
    requires Sound(s)
    requires s'.now == s.now && id < |s.rows| == |s'.rows| && s'.rows == s.rows[id := s'.rows[id]]
    requires s'.tickets - {t} == s.tickets - {t}
    requires RowSound(s'.rows[id], s.now)
    requires s.rows[id].attempts <= s'.rows[id].attempts
    requires s.rows[id].trace.delivered <= s'.rows[id].trace.delivered <= s.rows[id].trace.delivered + {t.attempt}
    requires t.id == id && (t in s'.tickets ==> TicketSound(s', t))
    ensures Sound(s')
  {
    forall u | u in s'.tickets
      ensures TicketSound(s', u)
    {
      if u != t {
        assert u in s'.tickets - {t} && u in s.tickets - {t};
        assert (s'.tickets - {t})[u] == (s.tickets - {t})[u];
        assert TicketSound(s, u);
      }
    }
  }

  lemma ClaimSound<E>(s: State<E>, id: nat)
    requires Sound(s) && Due(s, id)
    ensures Sound(Apply(s, Claim(id)))
  {
    var r := s.rows[id];
    assert RowSound(r, s.now);
    var s' := Apply(s, Claim(id));
    OthersSound(s, s', id, Ticket(id, r.attempts + 1));
  }

  lemma DispatchSound<E>(s: State<E>, t: Ticket, accepted: bool, heard: bool)
    requires Sound(s) && t in s.tickets && s.tickets[t] == Claimed
    ensures Sound(Apply(s, Dispatch(t, accepted, heard)))
  {
    assert TicketSound(s, t) && RowSound(s.rows[t.id], s.now);
    OthersSound(s, Apply(s, Dispatch(t, accepted, heard)), t.id, t);
  }

  lemma MarkSound<E>(s: State<E>, t: Ticket)
    requires Sound(s) && t in s.tickets && s.tickets[t] != Claimed
    ensures Sound(Apply(s, Mark(t)))
  {
    assert TicketSound(s, t) && RowSound(s.rows[t.id], s.now);
    BackoffInRangeExactly(t.attempt);
    OthersSound(s, Apply(s, Mark(t)), t.id, t);
  }

  lemma ApplySound<E>(s: State<E>, step: Step<E>)
    requires Sound(s)
    ensures Sound(Apply(s, step))
  {
    var s' := Apply(s, step);
    match step {
      case Tick(_) =>
        forall t | t in s'.tickets ensures TicketSound(s', t) { assert TicketSound(s, t); }
      case Enqueue(_) =>
        forall t | t in s'.tickets ensures TicketSound(s', t) { assert TicketSound(s, t); }
      case Claim(id) => if Due(s, id) { ClaimSound(s, id); }
      case Dispatch(t, accepted, heard) =>
        if t in s.tickets && s.tickets[t] == Claimed { DispatchSound(s, t, accepted, heard); }
      case Mark(t) => if t in s.tickets && s.tickets[t] != Claimed { MarkSound(s, t); }
      case Abandon(t) =>
        forall u | u in s'.tickets ensures TicketSound(s', u) { assert TicketSound(s, u); }
    }
  }

  lemma {:induction false} RunSound<E>(s: State<E>, steps: seq<Step<E>>)
    requires Sound(s)
    ensures Sound(Run(s, steps))
    decreases |steps|
  {
    if steps != [] {
      ApplySound(s, steps[0]);
      RunSound(Apply(s, steps[0]), steps[1..]);
    }
  }

  lemma {:induction false} BoundedSetSize(s: set<nat>, n: nat)
    requires forall k :: k in s ==> 1 <= k <= n
    ensures |s| <= n
  {
    if n > 0 {
      BoundedSetSize(s - {n}, n - 1);
    } else {
      assert s == {};
    }
  }

  /**
   Whatever the interleaving: attempts counts claims, the broker gets a row at
   most once per claim, a row marked dispatched did reach it, and a row that is
   not dispatched comes due within five minutes of its last change.
   */
  lemma EveryRunAccounted<E>(now: int, steps: seq<Step<E>>)
    ensures var s := Run(Initial(now), steps);
      forall i :: 0 <= i < |s.rows| ==>
        var r := s.rows[i];
        && r.attempts == |r.trace.claims|
        && r.trace.deliveries <= r.attempts
        && (r.dispatched ==> r.trace.deliveries >= 1)
        && r.availableAt <= r.trace.touched + 300_000
  {
    RunSound(Initial(now), steps);
    var s := Run(Initial(now), steps);
    forall i | 0 <= i < |s.rows|
      ensures s.rows[i].trace.deliveries <= s.rows[i].attempts
    {
      BoundedSetSize(s.rows[i].trace.delivered, s.rows[i].attempts);
    }
  }

  // ----- Rows are never lost, and a dispatched row is never claimed again -----

  ghost predicate RowGrows<E>(r: Row<E>, r': Row<E>) {
    && r'.event == r.event
    && r.attempts <= r'.attempts
    && r.trace.claims <= r'.trace.claims
    && r.trace.delivered <= r'.trace.delivered
    && (r.dispatched ==> r'.dispatched && r'.trace.claims == r.trace.claims)
  }

  ghost predicate Grows<E>(s: State<E>, s': State<E>) {
    && s.now <= s'.now
    && |s.rows| <= |s'.rows|
    && forall i :: 0 <= i < |s.rows| ==> RowGrows(s.rows[i], s'.rows[i])
  }

  lemma {:induction false} RunGrows<E>(s: State<E>, steps: seq<Step<E>>)
    ensures Grows(s, Run(s, steps))
    decreases |steps|
  {
    if steps != [] {
      var s1 := Apply(s, steps[0]);
      assert Grows(s, s1);
      RunGrows(s1, steps[1..]);
    }
  }

  // ----- Claims of one row are a lease apart -----

  /** No two claims come within a second. */
  ghost predicate ClaimsApart<E>(r: Row<E>) {
    forall i :: 0 <= i < |r.trace.claims| - 1 ==> r.trace.claims[i] + 1000 <= r.trace.claims[i + 1]
  }

  /**
   The next claim cannot come within a lease of the last: the row is done, or the lease is
   over, or it is not due before.
   */
  predicate Guarded<E>(r: Row<E>, now: int) {
    || r.dispatched
    || r.trace.claims == []
    || r.trace.claims[|r.trace.claims| - 1] + LEASE <= now
    || r.trace.claims[|r.trace.claims| - 1] + LEASE <= r.availableAt
  }

  /** Row i, once it is there: its claims are apart, and the next one will be. */
  ghost predicate Spaced<E>(s: State<E>, i: nat) {
    i < |s.rows| ==> ClaimsApart(s.rows[i]) && Guarded(s.rows[i], s.now)
  }

  /** Row i after waiting some time and claiming it if it is due. */
  function Reclaimed<E>(s: State<E>, wait: nat, i: nat): State<E> {
    Apply(Apply(s, Tick(wait)), Claim(i))
  }

  /** A row is spaced exactly when its claims are apart and stay so, whenever it is claimed next. */
  lemma SpacedExactly<E>(s: State<E>, i: nat)
    requires i < |s.rows|
    ensures Spaced(s, i) <==> ClaimsApart(s.rows[i]) && forall wait :: ClaimsApart(Reclaimed(s, wait, i).rows[i])
  {
    var r := s.rows[i];
    if ClaimsApart(r) && !Guarded(r, s.now) {
      var wait := if r.availableAt > s.now then r.availableAt - s.now else 0;
      var r' := Reclaimed(s, wait, i).rows[i];
      var n := |r.trace.claims|;
      assert r'.trace.claims == r.trace.claims + [s.now + wait];
      assert r'.trace.claims[n - 1] + LEASE > r'.trace.claims[n];
      assert !ClaimsApart(r');
    }
  }

  /** A step that does not mark row i failed, or marks it when no claim can then follow too soon. */
  predicate Patient<E>(s: State<E>, step: Step<E>, i: nat) {
    step.Mark? && step.ticket.id == i < |s.rows| && step.ticket in s.tickets && s.tickets[step.ticket] == Refused ==>
      var r := s.rows[i];
      || r.dispatched
      || r.trace.claims == []
      || r.trace.claims[|r.trace.claims| - 1] + LEASE <= s.now
      || r.trace.claims[|r.trace.claims| - 1] + LEASE <= s.now + BackoffMillis(step.ticket.attempt)
  }

  lemma ClaimGuards<E>(r: Row<E>, now: int)
    requires r.availableAt <= now && !r.dispatched && Guarded(r, now)
    ensures Guarded(ClaimRow(r, now), now)
    ensures ClaimsApart(r) ==> ClaimsApart(ClaimRow(r, now))
    ensures r.trace.claims != [] ==> r.trace.claims[|r.trace.claims| - 1] + LEASE <= now
  {
  }

  /** One step keeps a row spaced exactly when it is patient. */
  lemma StepSpacedExactly<E>(s: State<E>, step: Step<E>, i: nat)
    requires Sound(s) && Spaced(s, i)
    ensures Spaced(Apply(s, step), i) <==> Patient(s, step, i)
  {
    if step == Claim(i) && Due(s, i) {
      ClaimGuards(s.rows[i], s.now);
    }
  }

  /** A delay in the documented range is patience enough. */
  lemma FaithfulIsPatient<E>(s: State<E>, step: Step<E>, i: nat)
    requires Sound(s) && (step.Mark? && step.ticket.id == i ==> Faithful(step.ticket.attempt))
    ensures Patient(s, step, i)
  {
    if step.Mark? && step.ticket.id == i < |s.rows| {
      BackoffInRangeExactly(step.ticket.attempt);
      assert RowSound(s.rows[i], s.now);
    }
  }

  /** A row tried at most 33 times has only been given delays in that range. */
  lemma FewTriesArePatient<E>(s: State<E>, step: Step<E>, i: nat)
    requires Sound(s) && i < |s.rows| && s.rows[i].attempts <= 33
    ensures Patient(s, step, i)
  {
    if step.Mark? && step.ticket.id == i && step.ticket in s.tickets {
      assert TicketSound(s, step.ticket);
      FaithfulIsPatient(s, step, i);
    }
  }

  ghost predicate SpacedThroughout<E>(s: State<E>, steps: seq<Step<E>>, i: nat)
    decreases |steps|
  {
    Spaced(s, i) && (steps == [] || SpacedThroughout(Apply(s, steps[0]), steps[1..], i))
  }

  predicate AllPatient<E>(s: State<E>, steps: seq<Step<E>>, i: nat)
    decreases |steps|
  {
    steps == [] || (Patient(s, steps[0], i) && AllPatient(Apply(s, steps[0]), steps[1..], i))
  }

  lemma {:induction false} RunSpacedExactly<E>(s: State<E>, steps: seq<Step<E>>, i: nat)
    requires Sound(s) && Spaced(s, i)
    ensures SpacedThroughout(s, steps, i) <==> AllPatient(s, steps, i)
    decreases |steps|
  {
    if steps != [] {
      var s1 := Apply(s, steps[0]);
      StepSpacedExactly(s, steps[0], i);
      ApplySound(s, steps[0]);
      if Patient(s, steps[0], i) {
        RunSpacedExactly(s1, steps[1..], i);
      } else {
        assert !SpacedThroughout(s1, steps[1..], i);
      }
    }
  }

  /**
   Under any interleaving, the claims of a row are a lease apart throughout the
   run, whenever it might be claimed next, exactly when every failed mark of
   that row is patient.
   */
  lemma ClaimsApartExactly<E>(now: int, steps: seq<Step<E>>, i: nat)
    ensures SpacedThroughout(Initial<E>(now), steps, i) <==> AllPatient(Initial<E>(now), steps, i)
  {
    RunSpacedExactly(Initial(now), steps, i);
  }

  /** The first 34 claims are apart, and up to the 34th the next one will be. */
  ghost predicate RowSpacedEarly<E>(r: Row<E>, now: int) {
    && (forall k :: 0 <= k < |r.trace.claims| - 1 && k < 33 ==>
      r.trace.claims[k] + LEASE <= r.trace.claims[k + 1])
    && (r.attempts <= 33 ==> Guarded(r, now))
  }

  ghost predicate SpacedEarly<E>(s: State<E>, i: nat) {
    i < |s.rows| ==> RowSpacedEarly(s.rows[i], s.now)
  }

  lemma ClaimSpacedEarly<E>(r: Row<E>, now: int)
    requires r.availableAt <= now && !r.dispatched && r.attempts == |r.trace.claims| && RowSpacedEarly(r, now)
    ensures RowSpacedEarly(ClaimRow(r, now), now)
  {
    if r.attempts <= 33 {
      ClaimGuards(r, now);
    }
  }

  lemma StepSpacedEarly<E>(s: State<E>, step: Step<E>, i: nat)
    requires Sound(s) && SpacedEarly(s, i)
    ensures SpacedEarly(Apply(s, step), i)
  {
    if i < |s.rows| {
      assert RowSound(s.rows[i], s.now);
      if s.rows[i].attempts <= 33 {
        FewTriesArePatient(s, step, i);
      }
      if step == Claim(i) && Due(s, i) {
        ClaimSpacedEarly(s.rows[i], s.now);
      }
    }
  }

  lemma {:induction false} RunSpacedEarly<E>(s: State<E>, steps: seq<Step<E>>, i: nat)
    requires Sound(s) && SpacedEarly(s, i)
    ensures SpacedEarly(Run(s, steps), i)
    decreases |steps|
  {
    if steps != [] {
      StepSpacedEarly(s, steps[0], i);
      ApplySound(s, steps[0]);
      RunSpacedEarly(Apply(s, steps[0]), steps[1..], i);
    }
  }

  /** On every run, the first 34 claims of every row are a second apart. */
  lemma ClaimsALeaseApart<E>(now: int, steps: seq<Step<E>>, i: nat)
    requires i < |Run(Initial<E>(now), steps).rows|
    ensures var claims := Run(Initial<E>(now), steps).rows[i].trace.claims;
      forall k :: 0 <= k < |claims| - 1 && k < 33 ==> claims[k] + 1000 <= claims[k + 1]
  {
    RunSpacedEarly(Initial<E>(now), steps, i);
  }

  // ----- A claim holds its row -----

  predicate MarksNot<E>(steps: seq<Step<E>>, id: nat) {
    forall k :: 0 <= k < |steps| ==> !(steps[k].Mark? && steps[k].ticket.id == id)
  }

  lemma {:induction false} HeldUntil<E>(s: State<E>, steps: seq<Step<E>>, id: nat, until: int)
    requires id < |s.rows| && until <= s.rows[id].availableAt && MarksNot(steps, id)
    ensures var s' := Run(s, steps); id < |s'.rows| && until <= s'.rows[id].availableAt
    decreases |steps|
  {
    if steps != [] {
      HeldUntil(Apply(s, steps[0]), steps[1..], id, until);
    }
  }

  /** Whatever else happens, a claimed row nobody marks is not due again for one second. */
  lemma ClaimHolds<E>(s: State<E>, id: nat, steps: seq<Step<E>>)
    requires Due(s, id) && MarksNot(steps, id)
    ensures var later := Run(Apply(s, Claim(id)), steps); later.now < s.now + 1000 ==> !Due(later, id)
  {
    HeldUntil(Apply(s, Claim(id)), steps, id, s.now + 1000);
  }

  // ----- ... and at 34 attempts they are not -----

  /** A failed try of row 0, and enough time for its retry to come due. */
  function FailedTry<E>(attempt: nat): seq<Step<E>> {
    [Claim(0), Dispatch(Ticket(0, attempt), false, false), Mark(Ticket(0, attempt)), Tick(MAX_BACKOFF)]
  }

  function Outage<E>(tries: nat): seq<Step<E>> {
    if tries == 0 then [] else Outage(tries - 1) + FailedTry(tries)
  }

  ghost predicate Waiting<E>(s: State<E>, tries: nat) {
    && |s.rows| == 1 && s.tickets == map[]
    && !s.rows[0].dispatched && s.rows[0].availableAt <= s.now
    && s.rows[0].attempts == |s.rows[0].trace.claims| == tries
  }

  /** One failed try, with the retry falling `delay` after it. */
  lemma TryFails<E>(s: State<E>, tries: nat)
    requires Waiting(s, tries)
    ensures var t := Ticket(0, tries + 1);
      var s' := Apply(Apply(Apply(s, Claim(0)), Dispatch(t, false, false)), Mark(t));
      && |s'.rows| == 1 && s'.tickets == map[] && s'.now == s.now
      && !s'.rows[0].dispatched
      && s'.rows[0].availableAt == s.now + BackoffMillis(tries + 1)
      && s'.rows[0].attempts == |s'.rows[0].trace.claims| == tries + 1
      && s'.rows[0].trace.claims[tries] == s.now
  {
    var t := Ticket(0, tries + 1);
    assert Due(s, 0);
    var s1 := Apply(s, Claim(0));
    assert s1.tickets == map[t := Claimed];
    var s2 := Apply(s1, Dispatch(t, false, false));
    assert s2.tickets == map[t := Refused];
    var s3 := Apply(s2, Mark(t));
    assert s3.tickets == map[];
  }

  lemma RunFour<E>(s: State<E>, a: Step<E>, b: Step<E>, c: Step<E>, d: Step<E>)
    ensures Run(s, [a, b, c, d]) == Apply(Apply(Apply(Apply(s, a), b), c), d)
  {
    assert [a, b, c, d] == [a] + [b] + [c] + [d];
    RunAppend(s, [a] + [b] + [c], [d]);
    RunAppend(s, [a] + [b], [c]);
    RunAppend(s, [a], [b]);
  }

  lemma {:induction false} OutageWaits<E>(s: State<E>, tries: nat)
    requires Waiting(s, 0)
    ensures Waiting(Run(s, Outage(tries)), tries)
  {
    if tries > 0 {
      OutageWaits(s, tries - 1);
      var s0 := Run(s, Outage(tries - 1));
      var t := Ticket(0, tries);
      RunAppend(s, Outage(tries - 1), FailedTry(tries));
      RunFour(s0, Claim(0), Dispatch(t, false, false), Mark(t), Tick(MAX_BACKOFF));
      BackoffInRangeExactly(tries);
      TryFails(s0, tries - 1);
    }
  }

  /** The 34th failure sets the retry in the past: the row is claimed again in the same instant. */
  lemma ReclaimedAtOnce<E>(now: int, event: E)
    ensures var s := Run(Run(Apply(Initial(now), Enqueue(event)), Outage(33)),
                         [Claim(0), Dispatch(Ticket(0, 34), false, false), Mark(Ticket(0, 34)), Claim(0)]);
      |s.rows| == 1 && |s.rows[0].trace.claims| == 35 && s.rows[0].trace.claims[33] == s.rows[0].trace.claims[34]
  {
    var s0 := Apply(Initial(now), Enqueue(event));
    OutageWaits(s0, 33);
    var s1 := Run(s0, Outage(33));
    var t := Ticket(0, 34);
    RunFour(s1, Claim(0), Dispatch(t, false, false), Mark(t), Claim(0));
    TryFails(s1, 33);
    NegativeAt34();
  }
}
