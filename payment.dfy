/**
 * The emulated card payment of components/PaymentEmulationModal.tsx: the
 * three input formatters (card number, `MM/YY` expiry, CVV) and the
 * `form -> processing -> success | failed -> form` step machine.
 */
module Payment {
  import opened Wrappers
  import opened Text
  import opened Browser

  // ---------------------------------------------------------------------
  // Card number: strip `\s`, strip `\D`, group by four, slice to 19
  // ---------------------------------------------------------------------

  /** `.replace(/(\d{4})(?=\d)/g, "$1 ")` on a string of digits: a space
      after every complete group of four that another digit follows. */
  function GroupDigits(d: string): (r: string)
    ensures d == [] ==> r == []
    ensures d != [] ==> |r| == |d| + (|d| - 1) / 4
  {
    if |d| > 4 then d[..4] + " " + GroupDigits(d[4..]) else d
  }

  /** Position `i` of a grouped string is a space when `i % 5 == 4` and
      otherwise digit number `i - i / 5` of the input. */
  lemma {:induction false} GroupAt(d: string, i: int)
    requires 0 <= i < |GroupDigits(d)|
    ensures i % 5 == 4 ==> GroupDigits(d)[i] == ' '
    ensures i % 5 != 4 ==> 0 <= i - i / 5 < |d| && GroupDigits(d)[i] == d[i - i / 5]
  {
    if |d| > 4 {
      var rest := GroupDigits(d[4..]);
      assert GroupDigits(d) == d[..4] + " " + rest;
      if i >= 5 {
        GroupAt(d[4..], i - 5);
        assert (i - 5) % 5 == i % 5 && (i - 5) / 5 == i / 5 - 1;
      }
    }
  }

  /** Removing the spaces again gives back the digits. */
  lemma {:induction false} GroupDigitsKeepsDigits(d: string)
    requires AllDigits(d)
    ensures Keep(IsDigit, GroupDigits(d)) == d
  {
    if |d| > 4 {
      GroupDigitsKeepsDigits(d[4..]);
      KeepAll(IsDigit, d[..4]);
      KeepConcat(IsDigit, d[..4], " ");
      KeepConcat(IsDigit, d[..4] + " ", GroupDigits(d[4..]));
      assert d == d[..4] + d[4..];
    } else {
      KeepAll(IsDigit, d);
    }
  }

  /** The first 19 characters of a grouping are the grouping of the first
      16 digits: the 20th character would be a space. */
  lemma GroupThenTake(d: string)
    ensures Take(GroupDigits(d), 19) == GroupDigits(Take(d, 16))
  {
    if |d| > 16 {
      var a, b := Take(GroupDigits(d), 19), GroupDigits(d[..16]);
      assert |a| == 19 == |b|;
      forall i | 0 <= i < 19 ensures a[i] == b[i] {
        GroupAt(d, i);
        GroupAt(d[..16], i);
      }
    }
  }

  /** Digits are never whitespace, so stripping `\s` first and then `\D`
      keeps the same characters as stripping `\D` alone. */
  lemma {:induction false} DigitsIgnoreWhitespaceStrip(s: string)
    ensures Keep(IsDigit, Keep(NotWhitespace, s)) == Keep(IsDigit, s)
  {
    if s != [] {
      DigitsIgnoreWhitespaceStrip(s[1..]);
      KeepConcat(IsDigit, if NotWhitespace(s[0]) then [s[0]] else [], Keep(NotWhitespace, s[1..]));
    }
  }

  /** The shape of a grouping of at most 16 digits: digits and spaces
      only, spaces exactly at the positions `i % 5 == 4`, no trailing space,
      at most 19 characters, and the digits themselves once the spaces go. */
  lemma GroupedShape(d: string)
    requires AllDigits(d) && |d| <= 16
    ensures var g := GroupDigits(d);
      && |g| <= 19
      && (forall i :: 0 <= i < |g| ==> IsDigit(g[i]) || g[i] == ' ')
      && (forall i :: 0 <= i < |g| ==> (g[i] == ' ' <==> i % 5 == 4))
      && (g != [] ==> g[|g| - 1] != ' ')
      && Keep(IsDigit, g) == d
  {
    var g := GroupDigits(d);
    forall i | 0 <= i < |g| ensures (IsDigit(g[i]) || g[i] == ' ') && (g[i] == ' ' <==> i % 5 == 4) {
      GroupAt(d, i);
    }
    if g != [] {
      var q, s := (|d| - 1) / 4, (|d| - 1) % 4;
      assert |g| - 1 == 5 * q + s;
      assert (|g| - 1) % 5 == s;
    }
    GroupDigitsKeepsDigits(d);
  }

  /**
   * The card-number `onChange` formatter. Its output holds only digits and
   * spaces and at most 19 characters; without the spaces it is the first
   * (up to) 16 digits of the input, in order; spaces sit exactly at the
   * positions `i % 5 == 4`, so one follows each group of four that another
   * digit follows, and the output never ends in a space.
   */
  function FormatCardNumber(input: string): (r: string)
    ensures |r| <= 19
    ensures forall i :: 0 <= i < |r| ==> IsDigit(r[i]) || r[i] == ' '
    ensures forall i :: 0 <= i < |r| ==> (r[i] == ' ' <==> i % 5 == 4)
    ensures r != [] ==> r[|r| - 1] != ' '
    ensures Keep(IsDigit, r) == Take(Keep(IsDigit, input), 16)
    ensures r == GroupDigits(Take(Keep(IsDigit, input), 16))
  {
    var stripped := Keep(IsDigit, Keep(NotWhitespace, input));
    DigitsIgnoreWhitespaceStrip(input);
    GroupThenTake(stripped);
    GroupedShape(Take(stripped, 16));
    Take(GroupDigits(stripped), 19)
  }

  /** Reformatting the formatted card number changes nothing. */
  lemma CardNumberIdempotent(input: string)
    ensures FormatCardNumber(FormatCardNumber(input)) == FormatCardNumber(input)
  {
    var r := FormatCardNumber(input);
    var d := Take(Keep(IsDigit, input), 16);
    KeepAll(IsDigit, Keep(IsDigit, r));
    assert Take(Keep(IsDigit, r), 16) == d;
  }

  // ---------------------------------------------------------------------
  // Expiry date and CVV
  // ---------------------------------------------------------------------

  /**
   * The expiry `onChange` formatter: at most four digits, with `/` after
   * the second exactly when more than two digits remain. The output is at
   * most five characters, a digit everywhere except that slash, and its
   * digits are the first (up to) four of the input.
   */
  function FormatExpiry(input: string): (r: string)
    ensures |r| <= 5
    ensures Keep(IsDigit, r) == Take(Keep(IsDigit, input), 4)
    ensures forall i :: 0 <= i < |r| ==>
              (r[i] == '/' <==> i == 2 && |Take(Keep(IsDigit, input), 4)| > 2)
    ensures forall i :: 0 <= i < |r| && i != 2 ==> IsDigit(r[i])
    ensures |r| > 2 ==> r[2] == '/'
  {
    var value := Take(Keep(IsDigit, input), 4);
    if |value| > 2 then
      KeepAll(IsDigit, value[..2]);
      KeepAll(IsDigit, value[2..]);
      KeepConcat(IsDigit, value[..2], "/");
      KeepConcat(IsDigit, value[..2] + "/", value[2..]);
      assert value == value[..2] + value[2..];
      value[..2] + "/" + value[2..]
    else
      KeepAll(IsDigit, value);
      value
  }

  /** Reformatting the formatted expiry changes nothing. */
  lemma ExpiryIdempotent(input: string)
    ensures FormatExpiry(FormatExpiry(input)) == FormatExpiry(input)
  {
    var r := FormatExpiry(input);
    KeepAll(IsDigit, Keep(IsDigit, r));
    assert Take(Keep(IsDigit, r), 4) == Take(Keep(IsDigit, input), 4);
  }

  /** The CVV `onChange` formatter: the first (up to) three digits. */
  function FormatCvv(input: string): (r: string)
    ensures |r| <= 3 && AllDigits(r)
    ensures |r| == if |Keep(IsDigit, input)| < 3 then |Keep(IsDigit, input)| else 3
    ensures r == Keep(IsDigit, input)[..|r|]
  {
    Take(Keep(IsDigit, input), 3)
  }

  /** Reformatting the formatted CVV changes nothing. */
  lemma CvvIdempotent(input: string)
    ensures FormatCvv(FormatCvv(input)) == FormatCvv(input)
  {
    KeepAll(IsDigit, FormatCvv(input));
  }

  // ---------------------------------------------------------------------
  // The step machine
  // ---------------------------------------------------------------------

  datatype PaymentStep = Form | Processing | Success | Failed

  const FinalizeError := "Payment was successful, but there was an issue finalizing your tribute. Please contact support."
  const DeclinedError := "Your payment could not be processed (emulated). Please check your details or try again."
  /** What the failed screen shows when no error is set. */
  const FallbackFailedMessage := "An unexpected error occurred."

  const DummyCardNumber := "1812 3456 7890 1234"
  const DummyExpiry := "12/25"
  const InitialCvv := "871"
  /** The CVV the open effect puts back (the initial state holds another). */
  const ResetCvv := "158"

  /** `tributeData.senderName || ""`. */
  function SenderPrefill(data: NewTributeInput): string {
    if data.senderName.Some? then data.senderName.value else ""
  }

  /**
   * Where a payment that has waited out its pause ends, and the error it
   * sets: an emulated decline fails with the "could not be processed"
   * message; an emulated success whose callback throws fails with the
   * "finalizing" message; an emulated success whose callback resolves
   * succeeds and sets no error (`None`: the error is left as it was).
   */
  function PaymentOutcome(emulatedSuccess: bool, callbackResolves: bool): (r: (PaymentStep, Option<string>))
    ensures r.0 == Success <==> emulatedSuccess && callbackResolves
    ensures r.0 == Success || r.0 == Failed
    ensures r.0 == Failed <==> r.1.Some?
    ensures r.1 == Some(DeclinedError) <==> !emulatedSuccess
    ensures r.1 == Some(FinalizeError) <==> emulatedSuccess && !callbackResolves
  {
    if emulatedSuccess then
      if callbackResolves then (Success, None) else (Failed, Some(FinalizeError))
    else
      (Failed, Some(DeclinedError))
  }

  class PaymentModal {
    var isOpen: bool
    var tributeData: NewTributeInput
    var paymentStep: PaymentStep
    var paymentError: Option<string>
    var cardNumber: string
    var expiryDate: string
    var cvv: string
    var cardholderName: string
    /** Submissions waiting out their 2000 ms pause, oldest first, each with
        the `tributeData` of the render that submitted it. */
    var pending: seq<NewTributeInput>
    /** Success auto-close timers (1800 ms) not yet fired. */
    var closeTimers: nat
    /** The tribute records handed to `onPaymentSuccess`, in order. */
    var paidTributes: seq<NewTributeInput>
    /** How many times `onClose` has been called. */
    var closeRequests: nat

    /** A failed step always has an error to show, the error is one of the
        two failure messages, and a payment in progress has none and is
        waiting out its pause. */
    ghost predicate Valid()
      reads this
    {
      && (paymentStep == Failed ==> paymentError.Some?)
      && (paymentError.Some? ==> paymentError.value == FinalizeError || paymentError.value == DeclinedError)
      && (paymentStep == Processing ==> paymentError.None? && |pending| > 0)
    }

    /** The initial state: the `useState` values. */
    constructor (isOpen: bool, tributeData: NewTributeInput)
      ensures Valid()
      ensures this.isOpen == isOpen && this.tributeData == tributeData
      ensures paymentStep == Form && paymentError == None
      ensures cardNumber == DummyCardNumber && expiryDate == DummyExpiry && cvv == InitialCvv
      ensures cardholderName == SenderPrefill(tributeData)
      ensures pending == [] && closeTimers == 0 && paidTributes == [] && closeRequests == 0
    {
      this.isOpen, this.tributeData := isOpen, tributeData;
      paymentStep, paymentError := Form, None;
      cardNumber, expiryDate, cvv := DummyCardNumber, DummyExpiry, InitialCvv;
      cardholderName := SenderPrefill(tributeData);
      pending, closeTimers, paidTributes, closeRequests := [], 0, [], 0;
    }

    /** The reset effect's first run, after the initial render: an open
        modal puts the form back with no error and the dummy card. */
    method Mount()
      requires Valid()
      modifies this`paymentStep, this`paymentError, this`cardholderName, this`cardNumber, this`expiryDate, this`cvv
      ensures Valid()
      ensures isOpen ==>
        && paymentStep == Form && paymentError == None && cardholderName == SenderPrefill(tributeData)
        && cardNumber == DummyCardNumber && expiryDate == DummyExpiry && cvv == ResetCvv
      ensures !isOpen ==>
        && paymentStep == old(paymentStep) && paymentError == old(paymentError)
        && cardholderName == old(cardholderName) && cardNumber == old(cardNumber)
        && expiryDate == old(expiryDate) && cvv == old(cvv)
    {
      if isOpen {
        paymentStep := Form;
        paymentError := None;
        cardholderName := SenderPrefill(tributeData);
        cardNumber := DummyCardNumber;
        expiryDate := DummyExpiry;
        cvv := ResetCvv;
      }
    }

    /**
     * The parent re-renders with new props. The reset effect runs again
     * only when `isOpen` or `tributeData.senderName` differs from the last
     * render; it then resets an open modal as on mount. Any other change
     * (a new `tributeData` with the same sender) swaps the data and keeps
     * the typed card, the step and the error.
     */
    method PropsChanged(isOpen: bool, tributeData: NewTributeInput)
      requires Valid()
      modifies this`isOpen, this`tributeData, this`paymentStep, this`paymentError,
               this`cardholderName, this`cardNumber, this`expiryDate, this`cvv
      ensures Valid()
      ensures this.isOpen == isOpen && this.tributeData == tributeData
      ensures var reset := isOpen && (!old(this.isOpen) || tributeData.senderName != old(this.tributeData).senderName);
        if reset then
          && paymentStep == Form && paymentError == None && cardholderName == SenderPrefill(tributeData)
          && cardNumber == DummyCardNumber && expiryDate == DummyExpiry && cvv == ResetCvv
        else
          && paymentStep == old(paymentStep) && paymentError == old(paymentError)
          && cardholderName == old(cardholderName) && cardNumber == old(cardNumber)
          && expiryDate == old(expiryDate) && cvv == old(cvv)
    {
      var depsChanged := isOpen != this.isOpen || tributeData.senderName != this.tributeData.senderName;
      this.isOpen, this.tributeData := isOpen, tributeData;
      if depsChanged {
        Mount();
      }
    }

    method ChangeCardNumber(value: string)
      modifies this`cardNumber
      ensures cardNumber == FormatCardNumber(value)
    {
      cardNumber := FormatCardNumber(value);
    }

    method ChangeExpiry(value: string)
      modifies this`expiryDate
      ensures expiryDate == FormatExpiry(value)
    {
      expiryDate := FormatExpiry(value);
    }

    method ChangeCvv(value: string)
      modifies this`cvv
      ensures cvv == FormatCvv(value)
    {
      cvv := FormatCvv(value);
    }

    method ChangeCardholderName(value: string)
      modifies this`cardholderName
      ensures cardholderName == value
    {
      cardholderName := value;
    }

    /** `handleDummyPayment` up to its pause: nothing while a payment is
        processing, otherwise processing with the error cleared. */
    method HandleDummyPayment()
      requires Valid()
      modifies this`paymentStep, this`paymentError, this`pending
      ensures Valid()
      ensures old(paymentStep) == Processing ==>
        paymentStep == Processing && paymentError == old(paymentError) && pending == old(pending)
      ensures old(paymentStep) != Processing ==>
        paymentStep == Processing && paymentError == None && pending == old(pending) + [tributeData]
    {
      if paymentStep == Processing {
        return;
      }
      paymentStep := Processing;
      paymentError := None;
      pending := pending + [tributeData];
    }

    /**
     * The rest of `handleDummyPayment`, after the pause. `emulatedSuccess`
     * is `Math.random() > 0.05`; `callbackResolves` says whether
     * `onPaymentSuccess` resolves or throws. The oldest pending submission
     * finishes; on an emulated success the callback receives the tribute
     * data that submission captured, whatever the props are now; a success
     * starts the auto-close timer.
     */
    method ResumePayment(emulatedSuccess: bool, callbackResolves: bool)
      requires Valid() && |pending| > 0
      modifies this`paymentStep, this`paymentError, this`pending, this`closeTimers, this`paidTributes
      ensures Valid()
      ensures var outcome := PaymentOutcome(emulatedSuccess, callbackResolves);
        paymentStep == outcome.0 && paymentError == if outcome.1.Some? then outcome.1 else old(paymentError)
      ensures old(paymentStep) == Processing ==> paymentError == PaymentOutcome(emulatedSuccess, callbackResolves).1
      ensures pending == old(pending[1..])
      ensures paidTributes == old(paidTributes) + (if emulatedSuccess then [old(pending[0])] else [])
      ensures closeTimers == old(closeTimers) + (if paymentStep == Success then 1 else 0)
    {
      var submitted := pending[0];
      pending := pending[1..];
      if emulatedSuccess {
        paidTributes := paidTributes + [submitted];
        if callbackResolves {
          paymentStep := Success;
          closeTimers := closeTimers + 1;
        } else {
          paymentError := Some(FinalizeError);
          paymentStep := Failed;
        }
      } else {
        paymentError := Some(DeclinedError);
        paymentStep := Failed;
      }
    }

    /** The auto-close timer fires and calls `onClose`. */
    method CloseTimerElapsed()
      requires closeTimers > 0
      modifies this`closeTimers, this`closeRequests
      ensures closeTimers == old(closeTimers) - 1 && closeRequests == old(closeRequests) + 1
    {
      closeTimers := closeTimers - 1;
      closeRequests := closeRequests + 1;
    }

    /** "Try Again" on the failed screen: back to the form, error kept. */
    method TryAgain()
      requires Valid() && isOpen && paymentStep == Failed
      modifies this`paymentStep
      ensures Valid()
      ensures paymentStep == Form && paymentError == old(paymentError) && FormShowsError()
    {
      paymentStep := Form;
    }

    /** "Cancel" on the failed screen calls `onClose`. */
    method Cancel()
      requires paymentStep == Failed
      modifies this`closeRequests
      ensures closeRequests == old(closeRequests) + 1
    {
      closeRequests := closeRequests + 1;
    }

    /** The close button is disabled while processing. */
    predicate CloseEnabled()
      reads this
    {
      paymentStep != Processing
    }

    /** The close button: calls `onClose` unless a payment is processing. */
    method CloseClicked()
      modifies this`closeRequests
      ensures closeRequests == old(closeRequests) + (if old(paymentStep) == Processing then 0 else 1)
    {
      if CloseEnabled() {
        closeRequests := closeRequests + 1;
      }
    }

    /** The form repeats the last error under its fields when it is set and
        non-empty; on a reachable page that is whenever an error is set,
        and it is one of the two failure messages. */
    predicate FormShowsError()
      reads this
      ensures Valid() ==> (FormShowsError() <==> isOpen && paymentStep == Form && paymentError.Some?)
      ensures Valid() && FormShowsError() ==> paymentError.value == FinalizeError || paymentError.value == DeclinedError
    {
      isOpen && paymentStep == Form && paymentError.Some? && paymentError.value != []
    }

    /** The failed screen's message: the error, which a reachable state
        always has, or the generic fallback. */
    function FailedMessage(): (m: string)
      reads this
      requires paymentStep == Failed
      ensures Valid() ==> m == paymentError.value && (m == FinalizeError || m == DeclinedError)
    {
      if paymentError.Some? && paymentError.value != [] then paymentError.value else FallbackFailedMessage
    }
  }
}
