/**
 * The daily spending counter: one stored `{date, amount}` record that reads as
 * zero on any other day, is overwritten with `current + amount` after a
 * payment app is launched, and gates payments at 5000 a day.
 */
module SpendingLimit {
  import opened Common

  /** `DEFAULT_DAILY_LIMIT`, in rupees. */
  const DefaultDailyLimit: real := 5000.0

  /** `DailySpending`. */
  datatype DailySpending = DailySpending(date: Day, amount: real)

  /**
   * What a read of the storage key gives back: nothing, something that cannot
   * be read or parsed as a record, or a record.
   */
  datatype StoredSpending = NoRecord | Unreadable | Stored(record: DailySpending)

  /**
   * `getCurrentDailySpending`: today's total. A missing record, a record of
   * another day, and a read or parse failure all count as nothing spent.
   */
  function CurrentDailySpending(stored: StoredSpending, today: Day): (spent: real)
    ensures spent != 0.0 ==> stored.Stored? && stored.record.date == today && spent == stored.record.amount
    ensures stored.Stored? && stored.record.date == today ==> spent == stored.record.amount
  {
    match stored
    case Stored(record) => if record.date == today then record.amount else 0.0
    case _ => 0.0
  }

  /** `checkSpendingLimit`: whether paying `amount` keeps today's total within the limit. */
  function CheckSpendingLimit(stored: StoredSpending, today: Day, amount: real): (withinLimit: bool)
    ensures withinLimit <==> CurrentDailySpending(AfterSpending(stored, today, amount), today) <= DefaultDailyLimit
  {
    CurrentDailySpending(stored, today) + amount <= DefaultDailyLimit
  }

  /** The record `updateDailySpending` writes: today's date and today's total plus `amount`. */
  function AfterSpending(stored: StoredSpending, today: Day, amount: real): (next: StoredSpending)
    ensures next.Stored? && next.record.date == today
  {
    Stored(DailySpending(today, CurrentDailySpending(stored, today) + amount))
  }

  /** The stored counter, as a mutable cell in the key-value store. */
  class DailySpendingStore {
    var stored: StoredSpending

    constructor (initial: StoredSpending)
      ensures stored == initial
    {
      stored := initial;
    }

    /**
     * `updateDailySpending`: overwrites the record with today's total plus
     * `amount`. When the write fails (`writeOk` false) the error is only
     * logged and the stored record stays as it was.
     */
    method UpdateDailySpending(amount: real, today: Day, writeOk: bool)
      modifies this
      ensures stored == if writeOk then AfterSpending(old(stored), today, amount) else old(stored)
      ensures writeOk ==> CurrentDailySpending(stored, today) == CurrentDailySpending(old(stored), today) + amount
    {
      var current := CurrentDailySpending(stored, today);
      if writeOk {
        stored := Stored(DailySpending(today, current + amount));
      }
    }
  }

  /** Only a record dated today counts; any other date reads as zero. */
  lemma OtherDayReadsZero(stored: StoredSpending, today: Day)
    requires !(stored.Stored? && stored.record.date == today)
    ensures CurrentDailySpending(stored, today) == 0.0
  {
  }

  /** An update on a new day resets the counter to exactly the new amount. */
  lemma NewDayResets(stored: StoredSpending, today: Day, amount: real)
    requires !(stored.Stored? && stored.record.date == today)
    ensures AfterSpending(stored, today, amount) == Stored(DailySpending(today, amount))
  {
  }

  /** Round trip: reading back on the same day gives the previous total plus `amount`. */
  lemma UpdateThenRead(stored: StoredSpending, today: Day, amount: real)
    ensures CurrentDailySpending(AfterSpending(stored, today, amount), today)
         == CurrentDailySpending(stored, today) + amount
  {
  }

  /** The limit is inclusive: a payment that lands exactly on it is allowed, one beyond is not. */
  lemma LimitIsInclusive(stored: StoredSpending, today: Day, amount: real)
    ensures CurrentDailySpending(stored, today) + amount == DefaultDailyLimit ==> CheckSpendingLimit(stored, today, amount)
    ensures CurrentDailySpending(stored, today) + amount > DefaultDailyLimit ==> !CheckSpendingLimit(stored, today, amount)
  {
  }

  /**
   * A record that cannot be read is treated as nothing spent, so the check
   * passes for any amount up to the full limit: the `catch` of
   * `checkSpendingLimit` is never reached because the read already swallowed
   * the error.
   */
  lemma UnreadableCountsAsZero(today: Day, amount: real)
    ensures CheckSpendingLimit(Unreadable, today, amount) <==> amount <= DefaultDailyLimit
  {
  }

  /** The record after a series of same-day updates, all of whose writes succeed. */
  function AfterAll(stored: StoredSpending, today: Day, amounts: seq<real>): (final: StoredSpending)
    decreases |amounts|
  {
    if amounts == [] then stored
    else AfterAll(AfterSpending(stored, today, amounts[0]), today, amounts[1..])
  }

  function Total(amounts: seq<real>): real
  {
    if amounts == [] then 0.0 else amounts[0] + Total(amounts[1..])
  }

  /** Same-day updates add up: the counter grows by the sum of the amounts. */
  lemma {:induction false} AfterAllAddsUp(stored: StoredSpending, today: Day, amounts: seq<real>)
    decreases |amounts|
    ensures CurrentDailySpending(AfterAll(stored, today, amounts), today)
         == CurrentDailySpending(stored, today) + Total(amounts)
  {
    if amounts != [] {
      AfterAllAddsUp(AfterSpending(stored, today, amounts[0]), today, amounts[1..]);
    }
  }

  lemma {:induction false} TotalNonNegative(amounts: seq<real>)
    requires forall i :: 0 <= i < |amounts| ==> amounts[i] >= 0.0
    ensures Total(amounts) >= 0.0
  {
    if amounts != [] {
      TotalNonNegative(amounts[1..]);
    }
  }

  /**
   * Once a check fails on some day, it keeps failing that day after any
   * further non-negative spending.
   */
  lemma {:induction false} FailedCheckStaysFailed(stored: StoredSpending, today: Day, x: real, amounts: seq<real>)
    requires !CheckSpendingLimit(stored, today, x)
    requires forall i :: 0 <= i < |amounts| ==> amounts[i] >= 0.0
    ensures !CheckSpendingLimit(AfterAll(stored, today, amounts), today, x)
  {
    AfterAllAddsUp(stored, today, amounts);
    TotalNonNegative(amounts);
  }
}
