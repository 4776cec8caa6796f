/** Execution status of a work order, as the monthly report spells it. */
module Execution {
  import opened Text

  const NOT_STARTED := "Not Started"
  const ONGOING := "Ongoing"
  const PAUSED := "Paused"
  const HALTED := "Halted"
  const COMPLETED := "Completed"

  predicate Known(status: string) {
    status in {NOT_STARTED, ONGOING, PAUSED, HALTED, COMPLETED}
  }

  /** NormalizeExecutionStatus: free text, spelled in any case and padding, to a known status. */
  function Normalize(text: string): (status: string)
    ensures Known(status)
  {
    var s := Lower(TrimSpace(text));
    if s in {"completed", "complete", "done", "finished"} then COMPLETED
    else if s in {"ongoing", "active", "in progress", "in-progress"} then ONGOING
    else if s in {"halted", "stopped"} then HALTED
    else if s in {"paused", "on hold", "on-hold"} then PAUSED
    else NOT_STARTED
  }

  /** The spellings of each status other than Not Started, lower case and without padding. */
  const SPELLINGS: map<string, string> := map[
    "completed" := COMPLETED, "complete" := COMPLETED, "done" := COMPLETED, "finished" := COMPLETED,
    "ongoing" := ONGOING, "active" := ONGOING, "in progress" := ONGOING, "in-progress" := ONGOING,
    "halted" := HALTED, "stopped" := HALTED,
    "paused" := PAUSED, "on hold" := PAUSED, "on-hold" := PAUSED]

  /** The text decides by the table, in any case and padding; whatever is not in it is Not Started. */
  lemma SpellingsDecide(text: string)
    ensures var s := Lower(TrimSpace(text));
      Normalize(text) == if s in SPELLINGS then SPELLINGS[s] else NOT_STARTED
  {
  }

  /** Texts that differ in case and padding only read alike. */
  lemma CaseAndPaddingIgnored(a: string, b: string)
    requires EqualFold(TrimSpace(a), TrimSpace(b))
    ensures Normalize(a) == Normalize(b)
  {
  }

  /** A stored status reads as itself, so normalizing again changes nothing. */
  lemma KnownReadsAsItself(status: string)
    requires Known(status)
    ensures Normalize(status) == status
  {
    FoldsOf(status);
    SpellingsDecide(status);
  }

  lemma FoldsOf(status: string)
    requires Known(status)
    ensures TrimSpace(status) == status
    ensures Lower(status) == (if status == COMPLETED then "completed" else if status == ONGOING then "ongoing"
                              else if status == HALTED then "halted" else if status == PAUSED then "paused"
                              else "not started")
  {
  }

  function ForProgress(p: int): (status: string)
    ensures Known(status)
    ensures status == COMPLETED <==> p >= 100
    ensures status == ONGOING <==> 0 < p < 100
    ensures status == NOT_STARTED <==> p <= 0
  {
    if p >= 100 then COMPLETED else if p > 0 then ONGOING else NOT_STARTED
  }

  /** The contract status an imported row is given. */
  function LifecycleFor(status: string): string {
    if status == COMPLETED then "Completed" else "Active"
  }
}
