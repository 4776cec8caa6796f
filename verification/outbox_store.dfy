/**
 The outbox table as an object, and one publisher draining it. Each method is
 tied to the protocol steps it performs.
 */
module OutboxStore {
  import opened Outbox

  /** The ids of the rows below `upto` that are due, lowest first. */
  function DueIds<E>(s: State<E>, upto: nat): (ids: seq<nat>)
    ensures forall k :: 0 <= k < |ids| ==> ids[k] < upto && Due(s, ids[k])
  {
    if upto == 0 then []
    else DueIds(s, upto - 1) + (if Due(s, upto - 1) then [upto - 1] else [])
  }

  lemma {:induction false} DueIdsComplete<E>(s: State<E>, upto: nat, id: nat)
    ensures id in DueIds(s, upto) <==> id < upto && Due(s, id)
  {
    if upto > 0 {
      DueIdsComplete(s, upto - 1, id);
    }
  }

  function Claims<E>(batch: seq<Ticket>): (r: seq<Step<E>>)
    ensures |r| == |batch|
  {
    seq(|batch|, i requires 0 <= i < |batch| => Claim(batch[i].id))
  }

  datatype Reply = Reply(accepted: bool, heard: bool)

  function Sends<E>(batch: seq<Ticket>, broker: Ticket -> Reply): seq<Step<E>> {
    if batch == [] then []
    else
      var t := batch[|batch| - 1];
      Sends(batch[..|batch| - 1], broker) + [Dispatch(t, broker(t).accepted, broker(t).heard), Mark(t)]
  }

  class Store<E> {
    var now: int
    var rows: seq<Row<E>>
    var tickets: map<Ticket, Phase>

    function View(): State<E>
      reads this
    {
      State(now, rows, tickets)
    }

    constructor (start: int)
      ensures View() == Initial(start)
    {
      now, rows, tickets := start, [], map[];
    }

    method Enqueue(event: E)
      modifies this
      ensures View() == Apply(old(View()), Step.Enqueue(event))
    {
      rows := rows + [Row(event, now, 0, false, Trace([], {}, 0, now))];
    }

    /** Reserves one due row for a lease. */
    method ClaimOne(id: nat) returns (t: Ticket)
      requires id < |rows| && Due(View(), id)
      modifies this
      ensures View() == Apply(old(View()), Claim(id))
      ensures t == Ticket(id, old(rows)[id].attempts + 1)
      ensures |rows| == |old(rows)| && now == old(now)
      ensures rows[id].availableAt == now + 1000
      ensures forall j :: 0 <= j < |rows| && j != id ==> rows[j] == old(rows)[j]
    {
      t := Ticket(id, rows[id].attempts + 1);
      rows := rows[id := ClaimRow(rows[id], now)];
      tickets := tickets[t := Claimed];
    }

    /** Reserves the first due rows, in id order, up to n. */
    method ClaimDue(n: nat) returns (batch: seq<Ticket>)
      modifies this
      ensures var due := DueIds(old(View()), |old(rows)|);
        && |batch| == (if |due| < n then |due| else n)
        && forall k :: 0 <= k < |batch| ==> batch[k] == Ticket(due[k], old(rows)[due[k]].attempts + 1)
      ensures View() == Run(old(View()), Claims(batch))
    {
      batch := [];
      ghost var s := View();
      ghost var due := DueIds(s, 0);
      for i := 0 to |rows|
        invariant |rows| == |s.rows| && now == s.now
        invariant forall j :: i <= j < |rows| ==> rows[j] == s.rows[j]
        invariant due == DueIds(s, i)
        invariant |batch| == if |due| < n then |due| else n
        invariant forall k :: 0 <= k < |batch| ==> batch[k] == Ticket(due[k], s.rows[due[k]].attempts + 1)
        invariant View() == Run(s, Claims(batch))
      {
        if |batch| < n && !rows[i].dispatched && rows[i].availableAt <= now {
          ghost var before := View();
          var t := ClaimOne(i);
          ClaimsNext(s, before, batch, t);
          batch := batch + [t];
        }
        due := DueIds(s, i + 1);
      }
      ghost var all := DueIds(s, |s.rows|);
      assert due == all;
    }

    /** Reserves a batch (of 32 when no limit is given) for one second. */
    method ClaimBatch(limit: int) returns (batch: seq<Ticket>)
      modifies this
      ensures DueBatch(old(View()), batch)
      ensures FirstDue(old(View()), batch, if limit <= 0 then 32 else limit)
      ensures now == old(now) && |rows| == |old(rows)|
      ensures forall k :: 0 <= k < |batch| ==> rows[batch[k].id].availableAt == now + 1000
      ensures View() == Run(old(View()), Claims(batch))
    {
      var n := if limit <= 0 then 32 else limit;
      ghost var s := View();
      batch := ClaimDue(n);
      FirstOfDueIds(s, batch, n);
      BatchHeld(s, batch);
    }

    method MarkDispatched(t: Ticket)
      requires t.id < |rows| && t in tickets && tickets[t] == Sent
      modifies this
      ensures View() == Apply(old(View()), Mark(t))
    {
      rows := rows[t.id := MarkRow(rows[t.id], now, t.attempt, true)];
      tickets := tickets - {t};
    }

    /** The caller has computed the delay from the ticket's attempts, as drainOnce does. */
    method MarkFailed(t: Ticket, delay: int)
      requires t.id < |rows| && t in tickets && tickets[t] == Refused
      requires delay == BackoffMillis(t.attempt)
      modifies this
      ensures View() == Apply(old(View()), Mark(t))
    {
      var r := rows[t.id];
      rows := rows[t.id := r.(availableAt := now + delay, trace := r.trace.(touched := now))];
      tickets := tickets - {t};
    }

    /** One row of a batch: dispatch it, then mark it by what the broker answered. */
    method Send(t: Ticket, reply: Reply)
      requires t.id < |rows| && t in tickets && tickets[t] == Claimed
      modifies this
      ensures View() == Apply(Apply(old(View()), Dispatch(t, reply.accepted, reply.heard)), Mark(t))
      ensures now == old(now) && |rows| == |old(rows)|
      ensures forall i :: 0 <= i < |rows| && i != t.id ==> rows[i] == old(rows)[i]
      ensures forall u :: u in old(tickets) && u != t ==> u in tickets && tickets[u] == old(tickets)[u]
      ensures if reply.accepted && reply.heard then rows[t.id].dispatched
              else rows[t.id].dispatched == old(rows)[t.id].dispatched
                   && rows[t.id].availableAt == now + BackoffMillis(t.attempt)
    {
      ghost var s := View();
      var r := rows[t.id];
      if reply.accepted {
        r := r.(trace := r.trace.(delivered := r.trace.delivered + {t.attempt}, deliveries := r.trace.deliveries + 1));
      }
      rows := rows[t.id := r];
      if reply.accepted && reply.heard {
        tickets := tickets[t := Sent];
        assert View() == Apply(s, Dispatch(t, reply.accepted, reply.heard));
        MarkDispatched(t);
      } else {
        tickets := tickets[t := Refused];
        assert View() == Apply(s, Dispatch(t, reply.accepted, reply.heard));
        MarkFailed(t, BackoffMillis(t.attempt));
      }
    }

    ghost predicate Holds(t: Ticket)
      reads this
    {
      t in tickets && tickets[t] == Claimed && t.id < |rows| && !rows[t.id].dispatched
    }

    ghost predicate Settled(t: Ticket, reply: Reply)
      reads this
    {
      && t.id < |rows|
      && if reply.accepted && reply.heard then rows[t.id].dispatched
         else !rows[t.id].dispatched && rows[t.id].availableAt == now + BackoffMillis(t.attempt)
    }

    method SendAll(batch: seq<Ticket>, broker: Ticket -> Reply)
      requires forall k :: 0 <= k < |batch| ==> Holds(batch[k])
      requires forall j, k :: 0 <= j < k < |batch| ==> batch[j].id < batch[k].id
      modifies this
      ensures View() == Run(old(View()), Sends(batch, broker))
      ensures |rows| == |old(rows)|
      ensures forall k :: 0 <= k < |batch| ==> Settled(batch[k], broker(batch[k]))
    {
      ghost var s := View();
      for i := 0 to |batch|
        invariant |rows| == |s.rows|
        invariant View() == Run(s, Sends(batch[..i], broker))
        invariant forall k :: i <= k < |batch| ==> Holds(batch[k])
        invariant forall k :: 0 <= k < i ==> Settled(batch[k], broker(batch[k]))
      {
        ghost var before := View();
        var reply := broker(batch[i]);
        Send(batch[i], reply);
        SendsNext(s, before, batch, i, broker);
      }
      assert batch[..|batch|] == batch;
    }

    /**
     drainOnce: claim a batch, send each row, mark it. It is a run of the
     protocol, so everything proved of runs holds of it; and a row ends up
     dispatched exactly when the broker took it and said so.
     */
    method DrainOnce(limit: int, broker: Ticket -> Reply) returns (batch: seq<Ticket>)
      modifies this
      ensures View() == Run(old(View()), Claims(batch) + Sends(batch, broker))
      ensures |rows| == |old(rows)|
      ensures forall k :: 0 <= k < |batch| ==>
        Due(old(View()), batch[k].id) && Settled(batch[k], broker(batch[k]))
      ensures DueBatch(old(View()), batch) && FirstDue(old(View()), batch, if limit <= 0 then 32 else limit)
    {
      ghost var s := View();
      batch := ClaimBatch(limit);
      BatchHeld(s, batch);
      RunAppend(s, Claims(batch), Sends(batch, broker));
      SendAll(batch, broker);
    }

    /**
     One turn of Run: drain up to 32 rows, drain as many once more after a full
     batch, and set the next poll. The interval is reset exactly when the claim
     went through and some row was due.
     */
    method Poll(interval: int, claimFails: bool, followUpFails: bool, broker: Ticket -> Reply)
      returns (next: int, batch: seq<Ticket>, more: seq<Ticket>)
      modifies this
      ensures View() == Run(Run(old(View()), Drain(batch, broker)), Drain(more, broker))
      ensures claimFails ==> batch == [] && more == []
      ensures !claimFails ==> DueBatch(old(View()), batch) && FirstDue(old(View()), batch, 32)
      ensures |batch| < 32 || followUpFails ==> more == []
      ensures |batch| == 32 && !followUpFails ==>
        var drained := Run(old(View()), Drain(batch, broker));
        DueBatch(drained, more) && FirstDue(drained, more, 32)
      ensures next == NextInterval(interval, if claimFails then Failed
                                             else if exists id :: Due(old(View()), id) then Worked else Idle)
    {
      batch, more := [], [];
      if claimFails {
        return Stretched(interval, TICK), batch, more;
      }
      ghost var s := View();
      batch := DrainOnce(BATCH, broker);
      if |batch| > 0 {
        assert Due(s, batch[0].id);
        if |batch| >= BATCH && !followUpFails {
          more := DrainOnce(BATCH, broker);
        }
        return TICK, batch, more;
      }
      return Stretched(interval, TICK), batch, more;
    }
  }

  /** The protocol steps of draining one batch. */
  function Drain<E>(batch: seq<Ticket>, broker: Ticket -> Reply): seq<Step<E>> {
    Claims(batch) + Sends(batch, broker)
  }

  /** A due row is in the batch, or the batch is full of rows before it. */
  ghost predicate FirstDue<E>(s: State<E>, batch: seq<Ticket>, n: int) {
    && |batch| <= n
    && forall id :: Due(s, id) ==>
      || (exists k :: 0 <= k < |batch| && batch[k].id == id)
      || (|batch| == n && forall k :: 0 <= k < |batch| ==> batch[k].id < id)
  }

  lemma FirstOfDueIds<E>(s: State<E>, batch: seq<Ticket>, n: nat)
    requires var due := DueIds(s, |s.rows|);
      && |batch| == (if |due| < n then |due| else n)
      && forall k :: 0 <= k < |batch| ==> batch[k] == Ticket(due[k], s.rows[due[k]].attempts + 1)
    ensures DueBatch(s, batch) && FirstDue(s, batch, n)
  {
    var due := DueIds(s, |s.rows|);
    DueIdsAscend(s, |s.rows|);
    forall id | Due(s, id)
      ensures (exists k :: 0 <= k < |batch| && batch[k].id == id)
              || (|batch| == n && forall k :: 0 <= k < |batch| ==> batch[k].id < id)
    {
      DueIdsComplete(s, |s.rows|, id);
      var j :| 0 <= j < |due| && due[j] == id;
      if j < |batch| {
        assert batch[j].id == id;
      }
    }
  }

  lemma ClaimsNext<E>(s: State<E>, before: State<E>, batch: seq<Ticket>, t: Ticket)
    requires before == Run(s, Claims(batch))
    ensures Run(s, Claims(batch + [t])) == Apply(before, Claim(t.id))
  {
    assert Claims<E>(batch + [t]) == Claims<E>(batch) + [Claim(t.id)];
    RunAppend(s, Claims<E>(batch), [Claim(t.id)]);
    assert Run(before, [Claim(t.id)]) == Apply(before, Claim(t.id));
  }

  lemma SendsNext<E>(s: State<E>, before: State<E>, batch: seq<Ticket>, i: nat, broker: Ticket -> Reply)
    requires i < |batch| && before == Run(s, Sends(batch[..i], broker))
    ensures var t := batch[i]; var reply := broker(t);
      Run(s, Sends(batch[..i + 1], broker))
      == Apply(Apply(before, Dispatch(t, reply.accepted, reply.heard)), Mark(t))
  {
    var t := batch[i];
    var pair: seq<Step<E>> := [Dispatch(t, broker(t).accepted, broker(t).heard), Mark(t)];
    assert batch[..i + 1][..i] == batch[..i];
    var sent := Apply(before, pair[0]);
    assert pair[1..] == [Mark(t)] && Run(sent, [Mark(t)]) == Apply(sent, Mark(t));
    assert Sends<E>(batch[..i + 1], broker) == Sends<E>(batch[..i], broker) + pair;
    RunAppend(s, Sends(batch[..i], broker), pair);
  }

  /** Ids come out in order, so a batch names each row once. */
  lemma {:induction false} DueIdsAscend<E>(s: State<E>, upto: nat)
    ensures forall j, k :: 0 <= j < k < |DueIds(s, upto)| ==> DueIds(s, upto)[j] < DueIds(s, upto)[k]
  {
    if upto > 0 {
      DueIdsAscend(s, upto - 1);
      var shorter := DueIds(s, upto - 1);
      assert forall k :: 0 <= k < |shorter| ==> shorter[k] < upto - 1;
    }
  }

  /** A batch of due rows, each named once, under the attempt a claim now would take. */
  ghost predicate DueBatch<E>(s: State<E>, batch: seq<Ticket>) {
    && (forall j, k :: 0 <= j < k < |batch| ==> batch[j].id < batch[k].id)
    && (forall k :: 0 <= k < |batch| ==> Due(s, batch[k].id) && batch[k].attempt == s.rows[batch[k].id].attempts + 1)
  }

  /** The batch is held and undispatched; other rows are as they were. */
  ghost predicate BatchClaimed<E>(s: State<E>, s': State<E>, batch: seq<Ticket>) {
    && s'.now == s.now && |s'.rows| == |s.rows|
    && (forall k :: 0 <= k < |batch| ==>
      batch[k] in s'.tickets && s'.tickets[batch[k]] == Phase.Claimed
      && batch[k].id < |s.rows| && !s'.rows[batch[k].id].dispatched
      && s'.rows[batch[k].id].availableAt == s.now + 1000)
    && (forall i :: 0 <= i < |s.rows| && (forall k :: 0 <= k < |batch| ==> batch[k].id != i) ==>
          s'.rows[i] == s.rows[i])
  }

  lemma ClaimAddsToBatch<E>(s: State<E>, s': State<E>, batch: seq<Ticket>)
    requires batch != [] && DueBatch(s, batch) && BatchClaimed(s, s', batch[..|batch| - 1])
    ensures BatchClaimed(s, Apply(s', Claim(batch[|batch| - 1].id)), batch)
  {
    var n := |batch| - 1;
    var t := batch[n];
    assert forall k :: 0 <= k < n ==> batch[..n][k] == batch[k];
    assert s'.rows[t.id] == s.rows[t.id];
    var s'' := Apply(s', Claim(t.id));
    assert s''.tickets == s'.tickets[t := Phase.Claimed];
    assert s''.rows == s'.rows[t.id := ClaimRow(s'.rows[t.id], s'.now)];
  }

  /** After its claims, a batch of distinct due rows is held and none of it is dispatched. */
  lemma {:induction false} BatchHeld<E>(s: State<E>, batch: seq<Ticket>)
    requires DueBatch(s, batch)
    ensures BatchClaimed(s, Run(s, Claims(batch)), batch)
    decreases |batch|
  {
    if batch != [] {
      var n := |batch| - 1;
      BatchHeld(s, batch[..n]);
      ClaimAddsToBatch(s, Run(s, Claims(batch[..n])), batch);
      ClaimsNext(s, Run(s, Claims(batch[..n])), batch[..n], batch[n]);
      assert batch[..n] + [batch[n]] == batch;
    }
  }

  // ----- Poll interval -----

  const TICK := 2000
  const IDLE_MAX := 8000

  const BATCH := 32

  /** How a poll went: the claim failed, nothing was due, or rows were taken. */
  datatype Outcome = Failed | Idle | Worked

  /** nextOutboxInterval. */
  function Stretched(current: int, base: int): int {
    var c := if current < base then base else current;
    if 2 * c < IDLE_MAX then 2 * c else IDLE_MAX
  }

  function NextInterval(interval: int, o: Outcome): int {
    if o == Worked then TICK else Stretched(interval, TICK)
  }

  function IntervalAfter(polls: seq<Outcome>): int {
    if polls == [] then TICK else NextInterval(IntervalAfter(polls[..|polls| - 1]), polls[|polls| - 1])
  }

  /** Polls since the last that found work. */
  function Streak(polls: seq<Outcome>): nat {
    if polls == [] || polls[|polls| - 1] == Worked then 0 else 1 + Streak(polls[..|polls| - 1])
  }

  /**
   After any history of polls the next comes in two seconds when the last
   found work, in four after one fruitless poll, in eight after more, failed
   polls counting as fruitless.
   */
  lemma {:induction false} PollBounded(polls: seq<Outcome>)
    ensures IntervalAfter(polls) == if Streak(polls) == 0 then 2000 else if Streak(polls) == 1 then 4000 else 8000
  {
    if polls != [] {
      PollBounded(polls[..|polls| - 1]);
    }
  }
}
