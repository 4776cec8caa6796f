/** The money columns of a payment, with Go's int64 arithmetic. */
module PaymentFigures {
  import opened Int64
  import opened Wrappers

  datatype Figures = Figures(amount: int, retention: int, payable: int)

  /** `amount * int64(100-retention) / 100` */
  function PayableOf(amount: int, retention: int): int {
    TruncDiv(Wrap(amount * (100 - retention)), 100)
  }

  function FiguresOf(amount: int, retention: int): Figures {
    Figures(amount, retention, PayableOf(amount, retention))
  }

  /** CreatePayment: a negative amount is refused, retention is clamped to a percentage. */
  function Opened(amount: int, retention: int): Option<Figures> {
    if amount < 0 || !Fits(amount) then None
    else Some(FiguresOf(amount, if retention < 0 then 0 else if retention > 100 then 100 else retention))
  }

  /** PatchPayment: each figure given replaces the one read, and payable is restated from both. */
  function Patched(f: Figures, amount: Option<int>, retention: Option<int>): Option<Figures> {
    if amount.Some? && (amount.value < 0 || !Fits(amount.value)) then None
    else if retention.Some? && (retention.value < 0 || retention.value > 100) then None
    else Some(FiguresOf(if amount.Some? then amount.value else f.amount,
                        if retention.Some? then retention.value else f.retention))
  }

  /** A figure the request carries is taken, a negative or oversized one refused, any other kept. */
  lemma CorrectionSets(f: Figures, amount: Option<int>, retention: Option<int>)
    ensures Patched(f, amount, retention).None? <==>
      || (amount.Some? && !(0 <= amount.value <= MAX)) || (retention.Some? && !(0 <= retention.value <= 100))
    ensures Patched(f, amount, retention).Some? ==>
      var r := Patched(f, amount, retention).value;
      && r.amount == (if amount.Some? then amount.value else f.amount)
      && r.retention == (if retention.Some? then retention.value else f.retention)
  {
  }

  /** A new payment has the amount given, and the retention given brought within 0 and 100. */
  lemma OpeningSets(amount: int, retention: int)
    ensures Opened(amount, retention).Some? <==> 0 <= amount <= MAX
    ensures 0 <= amount <= MAX ==>
      var f := Opened(amount, retention).value;
      f.amount == amount && 0 <= f.retention <= 100 && (0 <= retention <= 100 ==> f.retention == retention)
      && (retention < 0 ==> f.retention == 0) && (retention > 100 ==> f.retention == 100)
  {
  }

  /** What every stored row keeps: payable restates the other two, as int64 computes it. */
  ghost predicate Consistent(f: Figures) {
    && 0 <= f.amount <= MAX
    && 0 <= f.retention <= 100
    && f.payable == PayableOf(f.amount, f.retention)
  }

  /** What a payable is meant to be: the net of retention, never negative, never above the gross. */
  ghost predicate NetOfRetention(f: Figures) {
    && f.payable == f.amount * (100 - f.retention) / 100
    && 0 <= f.payable <= f.amount
  }

  lemma NetShare(amount: int, percent: int)
    requires 0 <= amount && 0 <= percent <= 100
    ensures 0 <= amount * percent / 100 <= amount
  {
    ShareAtMost(amount, percent);
    assert amount * percent >= 0;
  }

  /** The two agree exactly when the product fits in an int64. */
  lemma NetExactly(f: Figures)
    requires Consistent(f)
    ensures NetOfRetention(f) <==> f.amount * (100 - f.retention) <= MAX
  {
    var p := f.amount * (100 - f.retention);
    NetShare(f.amount, 100 - f.retention);
    if p > MAX {
      WrapMovesByTurns(p);
      var k :| Wrap(p) == p - k * TWO_64;
      assert k >= 1;
      assert Wrap(p) <= p - TWO_64;
    }
  }

  /** Amounts up to a hundredth of the int64 range are safe at any retention. */
  lemma NetBelow(f: Figures)
    requires Consistent(f) && f.amount <= MAX / 100
    ensures NetOfRetention(f)
  {
    ScaledBelow(f.amount, 100 - f.retention);
    NetExactly(f);
  }

  lemma ShareAtMost(amount: int, percent: int)
    requires 0 <= amount && percent <= 100
    ensures amount * percent <= amount * 100
  {
    var rest := 100 - percent;
    assert amount * rest >= 0;
    assert amount * percent == amount * 100 - amount * rest;
  }

  lemma ScaledBelow(amount: int, percent: int)
    requires 0 <= amount <= MAX / 100 && 0 <= percent <= 100
    ensures amount * percent <= MAX
  {
    ShareAtMost(amount, percent);
  }

  /** One more, and the payable of an unretained payment is stored negative. */
  lemma NetOverflows()
    ensures Opened(MAX / 100 + 1, 0).Some? && Opened(MAX / 100 + 1, 0).value.payable < 0
  {
  }
}
