/**
 The contract lifecycle: which status moves are allowed, and the activity log
 that records each one.
 */
module Lifecycle {
  import Execution
  import opened Text
  import opened Wrappers

  datatype GovStatus =
    | Draft | UnderReview | Approved | Active | Suspended | Completed | Closed | Terminated
    | Unknown(text: string)

  /** govTransitions. */
  function Transitions(s: GovStatus): seq<GovStatus> {
    match s
    case Draft => [UnderReview, Terminated]
    case UnderReview => [Approved, Draft, Terminated]
    case Approved => [Active, Terminated]
    case Active => [Suspended, Completed, Terminated]
    case Suspended => [Active, Terminated]
    case Completed => [Closed]
    case _ => []
  }

  /** The moves of the lifecycle, one by one. */
  lemma MovesExactly(s: GovStatus, next: GovStatus)
    ensures next in Transitions(s) <==> (s, next) in {
      (Draft, UnderReview), (UnderReview, Draft), (UnderReview, Approved), (Approved, Active),
      (Active, Suspended), (Suspended, Active), (Active, Completed), (Completed, Closed),
      (Draft, Terminated), (UnderReview, Terminated), (Approved, Terminated), (Active, Terminated),
      (Suspended, Terminated)}
  {
  }

  predicate CanTransitionTo(s: GovStatus, next: GovStatus) {
    s == next || next in Transitions(s)
  }

  datatype Activity = CreatedIn(status: GovStatus) | Changed(from: GovStatus, to: GovStatus)

  datatype Row = Row(number: string, value: int, progress: int, execution: string, status: GovStatus,
                     activity: seq<Activity>)

  datatype Patch = Patch(
    status: Option<GovStatus>, execution: Option<string>, number: Option<string>, taken: bool,
    value: Option<int>, progress: Option<int>)

  function ClampProgress(v: int): int {
    if v < 0 then 0 else if v > 100 then 100 else v
  }

  /** Refused patches: an unknown or disallowed status, a bad execution status, a blank or taken number. */
  predicate Refused(c: Row, p: Patch) {
    || (p.status.Some? && p.status.value != c.status
        && (p.status.value.Unknown? || !CanTransitionTo(c.status, p.status.value)))
    || (p.execution.Some? && p.execution.value != "" && !Execution.Known(p.execution.value))
    || (p.number.Some? && (TrimSpace(p.number.value) == "" || (TrimSpace(p.number.value) != c.number && p.taken)))
  }

  function Patched(c: Row, p: Patch): Row {
    if Refused(c, p) then c
    else
      var status := if p.status.Some? then p.status.value else c.status;
      Row(if p.number.Some? then TrimSpace(p.number.value) else c.number,
          if p.value.Some? then p.value.value else c.value,
          if p.progress.Some? then ClampProgress(p.progress.value) else c.progress,
          if p.execution.Some? then p.execution.value else c.execution,
          status,
          c.activity + (if status != c.status then [Changed(c.status, status)] else []))
  }

  class GovContract {
    var number: string
    var value: int
    var progress: int
    var execution: string
    var status: GovStatus
    var activity: seq<Activity>

    function View(): Row
      reads this
    {
      Row(number, value, progress, execution, status, activity)
    }

    constructor (number: string, value: int, progress: int, status: GovStatus)
      ensures View() == Row(number, value, ClampProgress(progress), Execution.NOT_STARTED, status, [CreatedIn(status)])
    {
      this.number, this.value, this.progress := number, value, ClampProgress(progress);
      this.execution, this.status, this.activity := Execution.NOT_STARTED, status, [CreatedIn(status)];
    }

    /** PatchContract with applyContractPatch: check, assign, log. */
    method ApplyPatch(p: Patch) returns (ok: bool)
      modifies this
      ensures View() == Patched(old(View()), p)
      ensures ok <==> !Refused(old(View()), p)
    {
      var prev := status;
      var changed := false;
      if p.status.Some? && p.status.value != status {
        if p.status.value.Unknown? || !CanTransitionTo(status, p.status.value) {
          return false;
        }
        changed := true;
      }
      if p.execution.Some? && p.execution.value != "" && !Execution.Known(p.execution.value) {
        return false;
      }
      if p.number.Some? {
        var trimmed := TrimSpace(p.number.value);
        if trimmed == "" {
          return false;
        }
        if trimmed != number && p.taken {
          return false;
        }
      }
      Assign(p);
      if changed {
        activity := activity + [Changed(prev, status)];
      }
      return true;
    }

    /** applyContractPatch: the columns the patch carries, one by one. */
    method Assign(p: Patch)
      modifies this`number, this`value, this`progress, this`execution, this`status
      ensures number == if p.number.Some? then TrimSpace(p.number.value) else old(number)
      ensures value == OrElse(p.value, old(value)) && execution == OrElse(p.execution, old(execution))
      ensures progress == if p.progress.Some? then ClampProgress(p.progress.value) else old(progress)
      ensures status == OrElse(p.status, old(status))
    {
      if p.number.Some? {
        number := TrimSpace(p.number.value);
      }
      if p.value.Some? {
        value := p.value.value;
      }
      if p.progress.Some? {
        progress := ClampProgress(p.progress.value);
      }
      if p.execution.Some? {
        execution := p.execution.value;
      }
      if p.status.Some? {
        status := p.status.value;
      }
    }
  }

  function Run(c: Row, patches: seq<Patch>): Row
    decreases |patches|
  {
    if patches == [] then c else Run(Patched(c, patches[0]), patches[1..])
  }

  /** The status the log leads to, when each recorded change starts where the last one ended. */
  function Replay(activity: seq<Activity>): Option<GovStatus> {
    if activity == [] then None
    else match activity[|activity| - 1]
      case CreatedIn(s) => if |activity| == 1 then Some(s) else None
      case Changed(a, b) => if Replay(activity[..|activity| - 1]) == Some(a) then Some(b) else None
  }

  function StatusOf(a: Activity): GovStatus {
    if a.CreatedIn? then a.status else a.to
  }

  /** The statuses a contract has been in, in order. */
  function Visits(activity: seq<Activity>): (r: seq<GovStatus>)
    ensures |r| == |activity|
  {
    seq(|activity|, i requires 0 <= i < |activity| => StatusOf(activity[i]))
  }

  ghost predicate Path(visits: seq<GovStatus>) {
    && visits != [] && visits[0] == Draft
    && forall i :: 0 <= i < |visits| - 1 ==> visits[i + 1] in Transitions(visits[i])
  }

  ghost predicate Logged(c: Row) {
    && Replay(c.activity) == Some(c.status)
    && Path(Visits(c.activity))
    && Visits(c.activity)[|c.activity| - 1] == c.status
  }

  lemma PatchedLogged(c: Row, p: Patch)
    requires Logged(c)
    ensures Logged(Patched(c, p))
  {
    var c' := Patched(c, p);
    if c'.status != c.status {
      assert c'.activity[..|c'.activity| - 1] == c.activity;
      var before, after := Visits(c.activity), Visits(c'.activity);
      forall i | 0 <= i < |after| - 1 ensures after[i + 1] in Transitions(after[i]) {
        assert i < |before| - 1 ==> after[i] == before[i] && after[i + 1] == before[i + 1];
      }
    } else {
      assert c'.activity == c.activity;
    }
  }

  lemma {:induction false} RunLogged(c: Row, patches: seq<Patch>)
    requires Logged(c)
    ensures Logged(Run(c, patches))
    decreases |patches|
  {
    if patches != [] {
      PatchedLogged(c, patches[0]);
      RunLogged(Patched(c, patches[0]), patches[1..]);
    }
  }

  /** Two statuses were visited, in this order, before position k. */
  ghost predicate After(visits: seq<GovStatus>, first: GovStatus, second: GovStatus, k: nat)
    requires k <= |visits|
  {
    exists i, j :: 0 <= i < j < k && visits[i] == first && visits[j] == second
  }

  lemma {:induction false} ActiveIsApproved(visits: seq<GovStatus>, k: nat)
    requires Path(visits) && k < |visits| && visits[k] == Active
    ensures After(visits, UnderReview, Approved, k)
  {
    assert k > 0 && visits[k] in Transitions(visits[k - 1]);
    if visits[k - 1] == Approved {
      assert k > 1 && visits[k - 1] in Transitions(visits[k - 2]);
      assert visits[k - 2] == UnderReview;
    } else {
      assert visits[k - 1] == Suspended;
      assert k > 1 && visits[k - 1] in Transitions(visits[k - 2]);
      ActiveIsApproved(visits, k - 2);
      var i, j :| 0 <= i < j < k - 2 && visits[i] == UnderReview && visits[j] == Approved;
    }
  }

  lemma ClosedIsCompleted(visits: seq<GovStatus>, k: nat)
    requires Path(visits) && k < |visits| && visits[k] == Closed
    ensures After(visits, Active, Completed, k)
  {
    assert k > 0 && visits[k] in Transitions(visits[k - 1]);
    assert visits[k - 1] == Completed;
    assert k > 1 && visits[k - 1] in Transitions(visits[k - 2]);
    assert visits[k - 2] == Active;
  }

  /**
   For a contract created as a Draft, after any patches: replaying the log
   gives the current status; it was Active only after Under Review and then
   Approved, Closed only after Active and then Completed; and Closed and
   Terminated were never left.
   */
  lemma LogTellsTheLifecycle(number: string, value: int, progress: int, patches: seq<Patch>)
    ensures var c := Run(Row(number, value, progress, Execution.NOT_STARTED, Draft, [CreatedIn(Draft)]), patches);
      var visits := Visits(c.activity);
      && Replay(c.activity) == Some(c.status)
      && (forall k :: 0 <= k < |visits| && visits[k] == Active ==> After(visits, UnderReview, Approved, k))
      && (forall k :: 0 <= k < |visits| && visits[k] == Closed ==> After(visits, Active, Completed, k))
      && (forall k :: 0 <= k < |visits| && (visits[k] == Closed || visits[k] == Terminated) ==> k == |visits| - 1)
  {
    var start := Row(number, value, progress, Execution.NOT_STARTED, Draft, [CreatedIn(Draft)]);
    assert Logged(start);
    RunLogged(start, patches);
    var visits := Visits(Run(start, patches).activity);
    forall k | 0 <= k < |visits| && visits[k] == Active ensures After(visits, UnderReview, Approved, k) {
      ActiveIsApproved(visits, k);
    }
    forall k | 0 <= k < |visits| && visits[k] == Closed ensures After(visits, Active, Completed, k) {
      ClosedIsCompleted(visits, k);
    }
    forall k | 0 <= k < |visits| - 1 ensures visits[k] != Closed && visits[k] != Terminated {
      assert visits[k + 1] in Transitions(visits[k]);
    }
  }
}
