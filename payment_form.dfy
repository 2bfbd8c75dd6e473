/**
 * The payment form's `handlePayment`: three validations, then the vendor
 * blocklist, then the daily limit, then the launch of a UPI app, each failure
 * ending the attempt with an error toast. The launch, when the app opens,
 * adds the amount to the daily spending counter.
 */
module PaymentForm {
  import opened Common
  import opened Text
  import opened VendorCheck
  import opened SpendingLimit

  /** How one press of "Pay" is decided, before anything is launched. */
  datatype Outcome =
    | MissingInformation
    | InvalidUpiId
    | InvalidAmount
    | PaymentBlocked
    | SpendingLimitExceeded
    | Launch(amount: real)

  /** A toast shown to the user. */
  datatype Toast =
    | NoToast
    | ErrorToast(title: string, message: string)
    | SuccessToast(title: string, message: string)

  /**
   * The decision chain. `parsed` is what `parseFloat` makes of the amount
   * text, `None` standing for `NaN`; `stored` is the spending record and
   * `today` the current day.
   */
  function Decide(upiId: string, amountText: string, note: string, parsed: Option<real>,
                  stored: StoredSpending, today: Day): (o: Outcome)
    ensures o.Launch? ==> parsed == Some(o.amount) && o.amount > 0.0
  {
    if upiId == [] || amountText == [] || note == [] then MissingInformation
    else if '@' !in upiId then InvalidUpiId
    else if parsed.None? || parsed.value <= 0.0 then InvalidAmount
    else if CheckVendorBlocklist(upiId) then PaymentBlocked
    else if !CheckSpendingLimit(stored, today, parsed.value) then SpendingLimitExceeded
    else Launch(parsed.value)
  }

  /** The outcomes that end the attempt before `isLoading` is set. */
  predicate IsValidationFailure(o: Outcome)
  {
    o == MissingInformation || o == InvalidUpiId || o == InvalidAmount
  }

  /** An empty field stops everything: no later check looks at the input. */
  lemma MissingFieldComesFirst(upiId: string, amountText: string, note: string, parsed: Option<real>,
                               stored: StoredSpending, today: Day)
    requires upiId == [] || amountText == [] || note == []
    ensures Decide(upiId, amountText, note, parsed, stored, today) == MissingInformation
  {
  }

  /** A filled-in id without `@` is rejected, whatever the amount. */
  lemma IdWithoutAtIsInvalid(upiId: string, amountText: string, note: string, parsed: Option<real>,
                             stored: StoredSpending, today: Day)
    requires upiId != [] && amountText != [] && note != []
    requires '@' !in upiId
    ensures Decide(upiId, amountText, note, parsed, stored, today) == InvalidUpiId
  {
  }

  /** A well-formed id with an amount that is not a number or not positive is rejected. */
  lemma BadAmountIsInvalid(upiId: string, amountText: string, note: string, parsed: Option<real>,
                           stored: StoredSpending, today: Day)
    requires upiId != [] && amountText != [] && note != []
    requires '@' in upiId
    requires parsed.None? || parsed.value <= 0.0
    ensures Decide(upiId, amountText, note, parsed, stored, today) == InvalidAmount
  {
  }

  /**
   * A blocked vendor is refused whatever has been spent today: the limit is
   * not consulted.
   */
  lemma BlockedIgnoresSpending(upiId: string, amountText: string, note: string, amount: real,
                               stored: StoredSpending, today: Day, stored': StoredSpending, today': Day)
    requires upiId != [] && amountText != [] && note != []
    requires '@' in upiId && amount > 0.0
    requires CheckVendorBlocklist(upiId)
    ensures Decide(upiId, amountText, note, Some(amount), stored, today) == PaymentBlocked
    ensures Decide(upiId, amountText, note, Some(amount), stored', today') == PaymentBlocked
  {
  }

  /** The limit refuses an otherwise acceptable payment exactly when it would take today over 5000. */
  lemma OverLimitIsRefused(upiId: string, amountText: string, note: string, amount: real,
                           stored: StoredSpending, today: Day)
    requires upiId != [] && amountText != [] && note != []
    requires '@' in upiId && amount > 0.0 && !CheckVendorBlocklist(upiId)
    ensures Decide(upiId, amountText, note, Some(amount), stored, today) == SpendingLimitExceeded
        <==> CurrentDailySpending(stored, today) + amount > DefaultDailyLimit
  {
    var o := Decide(upiId, amountText, note, Some(amount), stored, today);
    assert o == if CheckSpendingLimit(stored, today, amount) then Launch(amount) else SpendingLimitExceeded;
  }

  /** A launch happens only when every check passes. */
  lemma LaunchOnlyWhenAllChecksPass(upiId: string, amountText: string, note: string, parsed: Option<real>,
                                    stored: StoredSpending, today: Day)
    requires Decide(upiId, amountText, note, parsed, stored, today).Launch?
    ensures upiId != [] && amountText != [] && note != []
    ensures '@' in upiId
    ensures parsed.Some? && parsed.value > 0.0
    ensures !CheckVendorBlocklist(upiId)
    ensures CurrentDailySpending(stored, today) + parsed.value <= DefaultDailyLimit
  {
  }

  /** When every check passes the app is launched, with the parsed amount. */
  lemma AllChecksPassLaunches(upiId: string, amountText: string, note: string, amount: real,
                              stored: StoredSpending, today: Day)
    requires upiId != [] && amountText != [] && note != []
    requires '@' in upiId
    requires amount > 0.0
    requires !CheckVendorBlocklist(upiId)
    requires CurrentDailySpending(stored, today) + amount <= DefaultDailyLimit
    ensures Decide(upiId, amountText, note, Some(amount), stored, today) == Launch(amount)
  {
  }

  /**
   * A launched payment leaves today's counter within the limit: the form
   * never spends past 5000 on its own.
   */
  lemma LaunchStaysWithinLimit(upiId: string, amountText: string, note: string, parsed: Option<real>,
                               stored: StoredSpending, today: Day)
    requires Decide(upiId, amountText, note, parsed, stored, today).Launch?
    ensures CurrentDailySpending(
      AfterSpending(stored, today, Decide(upiId, amountText, note, parsed, stored, today).amount), today)
      <= DefaultDailyLimit
  {
    UpdateThenRead(stored, today, parsed.value);
  }

  /**
   * Whatever the decision and however the launch goes, a counter within the
   * limit stays within it: it moves only on a launch, and a launch passed the
   * limit check.
   */
  lemma CounterStaysWithinLimit(upiId: string, amountText: string, note: string, parsed: Option<real>,
                                stored: StoredSpending, today: Day, recorded: bool)
    requires CurrentDailySpending(stored, today) <= DefaultDailyLimit
    ensures var o := Decide(upiId, amountText, note, parsed, stored, today);
      CurrentDailySpending(if o.Launch? && recorded then AfterSpending(stored, today, o.amount) else stored, today)
        <= DefaultDailyLimit
  {
    if Decide(upiId, amountText, note, parsed, stored, today).Launch? {
      LaunchStaysWithinLimit(upiId, amountText, note, parsed, stored, today);
    }
  }

  /**
   * `launchUpiPayment`: when a UPI app can open the link (`canOpen`) and
   * opening it does not fail (`openOk`), the amount is added to the daily
   * counter and the launch reports success; otherwise nothing changes.
   */
  method LaunchUpiPayment(spending: DailySpendingStore, amount: real, today: Day,
                          canOpen: bool, openOk: bool, writeOk: bool) returns (success: bool)
    modifies spending
    ensures success == (canOpen && openOk)
    ensures spending.stored == if success && writeOk then AfterSpending(old(spending.stored), today, amount)
                               else old(spending.stored)
  {
    if !canOpen {
      return false;
    }
    if !openOk {
      return false;
    }
    spending.UpdateDailySpending(amount, today, writeOk);
    return true;
  }

  /** The toast shown for an outcome; `launched` is what the launch reported. */
  function ToastFor(o: Outcome, upiId: string, launched: bool): (t: Toast)
  {
    match o
    case MissingInformation => ErrorToast("Missing Information", "Please fill all the fields")
    case InvalidUpiId => ErrorToast("Invalid UPI ID", "UPI ID should be in format username@upi")
    case InvalidAmount => ErrorToast("Invalid Amount", "Please enter a valid amount")
    case PaymentBlocked => ErrorToast("Payment Blocked", "Payments to " + upiId + " are not allowed")
    case SpendingLimitExceeded => ErrorToast("Spending Limit Exceeded", "You have exceeded your daily spending limit")
    case Launch(_) => if launched then SuccessToast("Payment Initiated", "UPI payment app launched successfully") else NoToast
  }

  /** Only a launch that succeeded is reported as a success, and a failed launch is silent. */
  lemma SuccessOnlyOnLaunch(o: Outcome, upiId: string, launched: bool)
    ensures ToastFor(o, upiId, launched).SuccessToast? <==> o.Launch? && launched
    ensures ToastFor(o, upiId, launched) == NoToast <==> o.Launch? && !launched
  {
  }

  /** The blocked-vendor toast names the id that was refused. */
  lemma BlockedToastNamesId(upiId: string, launched: bool)
    ensures ToastFor(PaymentBlocked, upiId, launched).ErrorToast?
    ensures ToastFor(PaymentBlocked, upiId, launched).message[12..12 + |upiId|] == upiId
  {
  }

  /** The form: its three text fields and the `isLoading` flag. */
  class PaymentFormState {
    var upiId: string
    var amountText: string
    var note: string
    var isLoading: bool

    constructor ()
      ensures upiId == [] && amountText == [] && note == [] && !isLoading
    {
      upiId, amountText, note, isLoading := [], [], [], false;
    }

    /** A change of one of the text inputs. */
    method SetFields(upiId': string, amountText': string, note': string)
      modifies this
      ensures upiId == upiId' && amountText == amountText' && note == note'
      ensures isLoading == old(isLoading)
    {
      upiId, amountText, note := upiId', amountText', note';
    }

    /**
     * The part of `handlePayment` after validation: `isLoading` is set, the
     * blocked and over-limit outcomes return at once, a launch is attempted
     * otherwise, and `isLoading` is cleared on every way out.
     */
    method Proceed(spending: DailySpendingStore, o: Outcome, today: Day,
                   canOpen: bool, openOk: bool, writeOk: bool) returns (toast: Toast)
      requires !IsValidationFailure(o)
      modifies this`isLoading, spending
      ensures toast == ToastFor(o, upiId, canOpen && openOk)
      ensures !isLoading
      ensures spending.stored == if o.Launch? && canOpen && openOk && writeOk
                                 then AfterSpending(old(spending.stored), today, o.amount)
                                 else old(spending.stored)
    {
      isLoading := true;
      var success := false;
      if o.Launch? {
        success := LaunchUpiPayment(spending, o.amount, today, canOpen, openOk, writeOk);
      }
      toast := ToastFor(o, upiId, success);
      isLoading := false;
    }

    /**
     * `handlePayment`. A validation failure returns before `isLoading` is
     * touched; every other path sets it and clears it again on the way out.
     * The counter moves only when the launch succeeds, by the parsed amount
     * (so, by `CounterStaysWithinLimit`, a counter within the limit stays
     * within it).
     */
    method HandlePayment(spending: DailySpendingStore, parsed: Option<real>, today: Day,
                         canOpen: bool, openOk: bool, writeOk: bool) returns (toast: Toast)
      modifies this`isLoading, spending
      ensures var o := Decide(upiId, amountText, note, parsed, old(spending.stored), today);
        && toast == ToastFor(o, upiId, canOpen && openOk)
        && (isLoading == if IsValidationFailure(o) then old(isLoading) else false)
        && spending.stored == if o.Launch? && canOpen && openOk && writeOk
                              then AfterSpending(old(spending.stored), today, o.amount)
                              else old(spending.stored)
    {
      var o := Decide(upiId, amountText, note, parsed, spending.stored, today);
      if IsValidationFailure(o) {
        return ToastFor(o, upiId, false);
      }
      toast := Proceed(spending, o, today, canOpen, openOk, writeOk);
    }
  }
}
