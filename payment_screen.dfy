/**
 * The payment screen: a QR scanner toggle, the last scanned UPI id, and the
 * blocked-payment modal, with its reason, message and the payment it
 * interrupted. The modal is opened by the screen's payment-attempt handler;
 * Cancel and the emergency override only close it.
 */
module PaymentScreen {
  import opened Common
  import opened VendorCheck
  import opened SpendingLimit
  import PaymentForm

  /** Why a payment was stopped: `"blacklist" | "limit"`. */
  datatype Reason = Blacklist | Limit

  /** `currentPaymentData`: the payment that was stopped. */
  datatype PaymentData = PaymentData(upiId: string, amount: real)

  /** The two buttons of the emergency-override alert. */
  datatype AlertChoice = CancelOverride | Proceed

  /** The message for the limit, the same for every id. */
  const LimitMessage: string := "You have reached your monthly " + "spending limit. Emergency " + "override available."

  /** The modal's message for a reason. */
  function BlockedMessage(reason: Reason, upiId: string): (message: string)
  {
    match reason
    case Blacklist => "Payments to " + upiId + " are blocked due to security concerns."
    case Limit => LimitMessage
  }

  /** The modal's title for a reason. */
  function ModalTitle(reason: Reason): (title: string)
    ensures title == "Blocked Vendor" <==> reason == Blacklist
    ensures title == "Spending Limit Reached" <==> reason == Limit
  {
    assert "Blocked Vendor"[0] != "Spending Limit Reached"[0];
    match reason
    case Blacklist => "Blocked Vendor"
    case Limit => "Spending Limit Reached"
  }

  /** The blacklist message names the refused id, right after its 12-character opening. */
  lemma BlacklistMessageNamesId(upiId: string)
    ensures |BlockedMessage(Blacklist, upiId)| == |upiId| + 50
    ensures BlockedMessage(Blacklist, upiId)[12..12 + |upiId|] == upiId
  {
  }

  /** The limit message is fixed text: it does not depend on the id. */
  lemma LimitMessageIsFixed(upiId: string, otherId: string)
    ensures BlockedMessage(Limit, upiId) == BlockedMessage(Limit, otherId) == LimitMessage
  {
  }

  /** The two reasons give two different titles and two different messages. */
  lemma ReasonsAreDistinguished(upiId: string)
    ensures ModalTitle(Blacklist) != ModalTitle(Limit)
    ensures BlockedMessage(Blacklist, upiId) != BlockedMessage(Limit, upiId)
  {
    var m := BlockedMessage(Blacklist, upiId);
    assert m[0] == 'P';
    assert LimitMessage[0] == 'Y';
  }

  /**
   * The reason the attempt handler stops a payment for, if any: the
   * blocklist is consulted first, the daily limit only for an id that
   * is not blocked.
   */
  function AttemptReason(upiId: string, amount: real, stored: StoredSpending, today: Day): (reason: Option<Reason>)
  {
    if CheckVendorBlocklist(upiId) then Some(Blacklist)
    else if !CheckSpendingLimit(stored, today, amount) then Some(Limit)
    else None
  }

  /** A blocked id is stopped for the blacklist, whatever has been spent today. */
  lemma BlacklistBeforeLimit(upiId: string, amount: real, stored: StoredSpending, today: Day)
    requires CheckVendorBlocklist(upiId)
    ensures AttemptReason(upiId, amount, stored, today) == Some(Blacklist)
  {
  }

  /** An id that is not blocked is stopped exactly when the amount would take today over 5000. */
  lemma LimitOnlyForUnblocked(upiId: string, amount: real, stored: StoredSpending, today: Day)
    requires !CheckVendorBlocklist(upiId)
    ensures AttemptReason(upiId, amount, stored, today) == Some(Limit)
        <==> CurrentDailySpending(stored, today) + amount > DefaultDailyLimit
    ensures AttemptReason(upiId, amount, stored, today) != Some(Blacklist)
  {
  }

  /**
   * For a form that passes its own validation, the screen stops a payment
   * for the same cause and in the same order as the form's decision chain.
   */
  lemma AgreesWithForm(upiId: string, amountText: string, note: string, amount: real,
                       stored: StoredSpending, today: Day)
    requires upiId != [] && amountText != [] && note != []
    requires '@' in upiId && amount > 0.0
    ensures var o := PaymentForm.Decide(upiId, amountText, note, Some(amount), stored, today);
      && (AttemptReason(upiId, amount, stored, today) == Some(Blacklist) <==> o == PaymentForm.PaymentBlocked)
      && (AttemptReason(upiId, amount, stored, today) == Some(Limit) <==> o == PaymentForm.SpendingLimitExceeded)
      && (AttemptReason(upiId, amount, stored, today) == None <==> o == PaymentForm.Launch(amount))
  {
  }

  /** The success toast the override's "Proceed" shows; nothing else happens. */
  function OverrideToast(choice: AlertChoice): (toast: PaymentForm.Toast)
  {
    if choice == Proceed then PaymentForm.SuccessToast("Payment Initiated", "Emergency override approved")
    else PaymentForm.NoToast
  }

  /** Only "Proceed" shows anything, and what it shows is a success toast. */
  lemma OverrideToastOnlyOnProceed(choice: AlertChoice)
    ensures OverrideToast(choice).SuccessToast? <==> choice == Proceed
    ensures OverrideToast(choice) == PaymentForm.NoToast <==> choice == CancelOverride
  {
  }

  /** The screen's state fields. */
  class PaymentScreenState {
    var showScanner: bool
    var scannedUpiId: string
    var blockedModalVisible: bool
    var blockedMessage: string
    var blockedReason: Reason
    var currentPaymentData: Option<PaymentData>

    /** The screen as mounted: no scanner, nothing scanned, the modal closed. */
    constructor ()
      ensures !showScanner && scannedUpiId == [] && !blockedModalVisible
      ensures blockedMessage == [] && blockedReason == Blacklist && currentPaymentData == None
    {
      showScanner, scannedUpiId, blockedModalVisible := false, [], false;
      blockedMessage, blockedReason, currentPaymentData := [], Blacklist, None;
    }

    /**
     * `handleBlockedPayment`: records the payment and the reason, sets the
     * message for that reason and shows the modal. The scanner fields are
     * not touched.
     */
    method HandleBlockedPayment(upiId: string, amount: real, reason: Reason)
      modifies this`currentPaymentData, this`blockedReason, this`blockedMessage, this`blockedModalVisible
      ensures currentPaymentData == Some(PaymentData(upiId, amount))
      ensures blockedReason == reason
      ensures blockedMessage == BlockedMessage(reason, upiId)
      ensures blockedModalVisible
    {
      currentPaymentData := Some(PaymentData(upiId, amount));
      blockedReason := reason;
      blockedMessage := BlockedMessage(reason, upiId);
      blockedModalVisible := true;
    }

    /**
     * `onPaymentAttempt`: a blocked id opens the modal for the blacklist and
     * gives `false`; otherwise the limit is checked, an over-limit amount
     * opens the modal for the limit, and the handler gives nothing back
     * (`None`, JavaScript's `undefined`), whatever the limit says.
     */
    method OnPaymentAttempt(upiId: string, amount: real, stored: StoredSpending, today: Day)
      returns (result: Option<bool>)
      modifies this`currentPaymentData, this`blockedReason, this`blockedMessage, this`blockedModalVisible
      ensures result == if CheckVendorBlocklist(upiId) then Some(false) else None
      ensures var reason := AttemptReason(upiId, amount, stored, today);
        if reason.Some? then
          && currentPaymentData == Some(PaymentData(upiId, amount))
          && blockedReason == reason.value
          && blockedMessage == BlockedMessage(reason.value, upiId)
          && blockedModalVisible
        else
          && currentPaymentData == old(currentPaymentData)
          && blockedReason == old(blockedReason)
          && blockedMessage == old(blockedMessage)
          && blockedModalVisible == old(blockedModalVisible)
    {
      if CheckVendorBlocklist(upiId) {
        HandleBlockedPayment(upiId, amount, Blacklist);
        return Some(false);
      }
      var isWithinLimit := CheckSpendingLimit(stored, today, amount);
      if !isWithinLimit {
        HandleBlockedPayment(upiId, amount, Limit);
      }
      return None;
    }

    /** The modal's Cancel button, and the modal's own close request: the modal is hidden and nothing else changes. */
    method Cancel()
      modifies this`blockedModalVisible
      ensures !blockedModalVisible
    {
      blockedModalVisible := false;
    }

    /**
     * `handleEmergencyOverride`: hides the modal, then asks for a
     * confirmation; "Proceed" only shows a toast. No payment is launched, the
     * daily counter is not touched and nothing is recorded: the modal's
     * visibility is the only state that changes.
     */
    method EmergencyOverride(choice: AlertChoice) returns (toast: PaymentForm.Toast)
      modifies this`blockedModalVisible
      ensures !blockedModalVisible
      ensures toast == OverrideToast(choice)
    {
      blockedModalVisible := false;
      toast := OverrideToast(choice);
    }

    /** The "Scan QR Code" button. */
    method OpenScanner()
      modifies this`showScanner
      ensures showScanner
    {
      showScanner := true;
    }

    /** The scanner's close button. */
    method CloseScanner()
      modifies this`showScanner
      ensures !showScanner
    {
      showScanner := false;
    }

    /** A successful scan: the id is kept and the scanner closes. */
    method OnScanSuccess(upiId: string)
      modifies this`scannedUpiId, this`showScanner
      ensures scannedUpiId == upiId
      ensures !showScanner
    {
      scannedUpiId := upiId;
      showScanner := false;
    }
  }
}
