/** The EMI payment dialog: which installments it lists, the payment
    wizard's steps from choosing an installment to the result screen, the
    local record of payments made in this dialog that shadows the server's
    status, and the countdown that brings the result screen back to the
    list. */
module EmiDialog {
  import opened JsText
  import opened EmiInput

  // ---------------------------------------------------------------- data

  datatype Step =
    | ListStep | MethodStep | BankStep | UpiVerifyStep | UpiPinStep | CardStep
    | ProcessingStep | SuccessStep | FailureStep

  /** "all" lists every installment, "sequential" only the next one due. */
  datatype Mode = AllMode | SequentialMode

  /** An installment as the dialog reads it: its id and its server status. */
  datatype Emi = Emi(id: int, status: string)

  /** A local payment record: paid with the server's transaction id and
      method on the given date, or failed with a reason. */
  datatype PaymentRecord =
    | Paid(transactionId: string, payMethod: string, paidDate: string)
    | Failed(failureReason: string)

  datatype CardDetails = CardDetails(number: string, expiry: string, cvv: string, name: string)

  const EmptyCard := CardDetails("", "", "", "")
  const PaidStatus := "PAID"
  const FailedStatus := "FAILED"
  const UpiMethod := "upi"
  const CardMethod := "card"
  const CountdownStart := 5
  const DefaultFailure := "Payment failed due to an unexpected error."

  /** The request the dialog sends: the installment and the method name. */
  datatype PayRequest = PayRequest(repaymentId: int, payMethod: string)

  /** What the payment service answers: a transaction id and the method it
      recorded, or an error with an optional message. */
  datatype PayOutcome = Succeeded(transactionId: string, paymentMethod: string) | Declined(message: Option<string>)

  /** Everything the dialog keeps between renders. */
  datatype Session = Session(
    mode: Mode,
    selected: Option<int>,
    payMethod: string,
    bank: string,
    overlay: map<int, PaymentRecord>,
    step: Step,
    upiId: string,
    upiPin: string,
    upiVerified: bool,
    card: CardDetails,
    countdown: int,
    failureReason: string)

  function InitialSession(paymentMode: Mode): Session {
    Session(paymentMode, None, "", "", map[], ListStep, "", "", false, EmptyCard, CountdownStart, "")
  }

  /** What holds in every state the dialog can reach. */
  ghost predicate Valid(s: Session) {
    && (s.step != ListStep ==> s.selected.Some?)
    && 1 <= s.countdown <= CountdownStart
    && AllDigits(s.upiPin) && |s.upiPin| <= PinLength
    && AllDigits(s.card.cvv) && |s.card.cvv| <= CvvLength
    && (s.step == UpiPinStep ==> s.upiVerified)
    && (s.step == SuccessStep ==> s.selected.value in s.overlay && s.overlay[s.selected.value].Paid?)
    && (s.step == FailureStep ==>
          s.selected.value in s.overlay && s.overlay[s.selected.value] == Failed(s.failureReason))
  }

  lemma InitialValid(paymentMode: Mode)
    ensures Valid(InitialSession(paymentMode))
  {
  }

  // ---------------------------------------------------------------- the list

  /** Paid on the server or in this dialog. */
  predicate IsPaid(e: Emi, overlay: map<int, PaymentRecord>) {
    e.status == PaidStatus || (e.id in overlay && overlay[e.id].Paid?)
  }

  /** The status chip: a payment made here shows PAID, a failed one FAILED,
      otherwise the server's status. */
  function ShownStatus(e: Emi, overlay: map<int, PaymentRecord>): (shown: string)
    ensures shown == PaidStatus <==> IsPaid(e, overlay) || e.status == PaidStatus
    ensures !IsPaid(e, overlay) && e.id in overlay && overlay[e.id].Failed? ==> shown == FailedStatus
    ensures !IsPaid(e, overlay) && !(e.id in overlay && overlay[e.id].Failed?) ==> shown == e.status
  {
    if IsPaid(e, overlay) then PaidStatus
    else if e.id in overlay && overlay[e.id].Failed? then FailedStatus
    else e.status
  }

  /** Position `i` holds the first installment that is not paid. */
  predicate FirstUnpaidAt(emis: seq<Emi>, overlay: map<int, PaymentRecord>, i: int) {
    0 <= i < |emis| && !IsPaid(emis[i], overlay) && forall j :: 0 <= j < i ==> IsPaid(emis[j], overlay)
  }

  /** `selectedLoanEMIs.find(...)`: the first installment not paid. */
  function FirstUnpaid(emis: seq<Emi>, overlay: map<int, PaymentRecord>): (r: Option<nat>)
    ensures r.Some? ==> r.value < |emis| && !IsPaid(emis[r.value], overlay)
    ensures r.Some? ==> forall j :: 0 <= j < r.value ==> IsPaid(emis[j], overlay)
    ensures r.None? ==> forall j :: 0 <= j < |emis| ==> IsPaid(emis[j], overlay)
  {
    if emis == [] then None
    else if !IsPaid(emis[0], overlay) then Some(0)
    else
      var r := FirstUnpaid(emis[1..], overlay);
      if r.Some? then Some(r.value + 1) else None
  }

  /** getDisplayEMIs */
  function DisplayEmis(mode: Mode, emis: seq<Emi>, overlay: map<int, PaymentRecord>): (r: seq<Emi>)
    ensures mode == AllMode ==> r == emis
    ensures mode == SequentialMode ==> |r| <= 1
    ensures mode == SequentialMode ==>
      (r == [] <==> forall j :: 0 <= j < |emis| ==> IsPaid(emis[j], overlay))
    ensures mode == SequentialMode && r != [] ==>
      exists i :: FirstUnpaidAt(emis, overlay, i) && r[0] == emis[i]
  {
    if mode == AllMode then emis
    else
      var i := FirstUnpaid(emis, overlay);
      if i.Some? then [emis[i.value]] else []
  }

  /** The Pay button of a row is rendered when the row is not paid. */
  predicate PayOffered(mode: Mode, emis: seq<Emi>, overlay: map<int, PaymentRecord>, id: int) {
    exists e :: e in DisplayEmis(mode, emis, overlay) && e.id == id && !IsPaid(e, overlay)
  }

  /** In sequential mode the only installment that can be paid is the first
      unpaid one. */
  lemma SequentialOffersFirstUnpaid(emis: seq<Emi>, overlay: map<int, PaymentRecord>, id: int)
    requires PayOffered(SequentialMode, emis, overlay, id)
    ensures exists i :: FirstUnpaidAt(emis, overlay, i) && emis[i].id == id
  {
  }

  // ---------------------------------------------------------------- transitions

  /** handlePaymentClick */
  function PaymentClick(s: Session, id: int): Session {
    s.(selected := Some(id), step := MethodStep)
  }

  /** The method name the request carries: the bank's name for UPI. */
  function RequestMethod(payMethod: string, bank: string): string {
    if payMethod == UpiMethod then bank else payMethod
  }

  /** The request sent from a session, with the method and bank it holds. */
  function RequestOf(s: Session): PayRequest
    requires s.selected.Some?
  {
    PayRequest(s.selected.value, RequestMethod(s.payMethod, s.bank))
  }

  /** handleMethodSelect as intended: UPI goes on to the bank list, card to
      the card form, and any other method straight to processing with a
      request naming that method. */
  function MethodSelect(s: Session, m: string): (Session, Option<PayRequest>)
    requires s.selected.Some?
  {
    var t := s.(payMethod := m);
    if m == UpiMethod then (t.(step := BankStep), None)
    else if m == CardMethod then (t.(step := CardStep), None)
    else (t.(step := ProcessingStep), Some(RequestOf(t)))
  }

  /** handleMethodSelect as written: processPayment is the function of the
      render in which the click happened, so it reads the method (and bank)
      selected before this click. */
  function MethodSelectAsWritten(s: Session, m: string): (Session, Option<PayRequest>)
    requires s.selected.Some?
  {
    var t := s.(payMethod := m);
    if m == UpiMethod then (t.(step := BankStep), None)
    else if m == CardMethod then (t.(step := CardStep), None)
    else (t.(step := ProcessingStep), Some(RequestOf(s)))
  }

  /** handleBankSelect */
  function BankSelect(s: Session, bank: string): Session {
    s.(bank := bank, step := UpiVerifyStep)
  }

  /** handleUpiVerifySubmit: an empty UPI id is ignored; otherwise the id
      is accepted and the PIN is asked for. */
  function UpiVerifySubmit(s: Session): Session {
    if s.upiId != "" then s.(upiVerified := true, step := UpiPinStep) else s
  }

  /** handleUpiPinSubmit */
  function UpiPinSubmit(s: Session): (Session, Option<PayRequest>)
    requires s.selected.Some?
  {
    if |s.upiPin| == PinLength then (s.(step := ProcessingStep), Some(RequestOf(s))) else (s, None)
  }

  predicate CardComplete(c: CardDetails) {
    c.number != "" && c.expiry != "" && c.cvv != "" && c.name != ""
  }

  /** handleCardSubmit */
  function CardSubmit(s: Session): (Session, Option<PayRequest>)
    requires s.selected.Some?
  {
    if CardComplete(s.card) then (s.(step := ProcessingStep), Some(RequestOf(s))) else (s, None)
  }

  /** The end of processPayment: the answer is recorded for the selected
      installment and the result screen is shown. */
  function PaymentResult(s: Session, outcome: PayOutcome, today: string): Session
    requires s.selected.Some?
  {
    var id := s.selected.value;
    match outcome
    case Succeeded(txn, paymentMethod) =>
      s.(overlay := s.overlay[id := Paid(txn, paymentMethod, today)], step := SuccessStep)
    case Declined(message) =>
      var reason := OrElse(message, DefaultFailure);
      s.(failureReason := reason, overlay := s.overlay[id := Failed(reason)], step := FailureStep)
  }

  /** handleRetryPayment */
  function Retry(s: Session): Session {
    s.(step := MethodStep, failureReason := "")
  }

  /** The "Change Method" button. */
  function ChangeMethod(s: Session): Session {
    s.(step := MethodStep)
  }

  /** resetPaymentFlow, also run when the dialog closes. */
  function Reset(s: Session): Session {
    Session(s.mode, None, "", "", s.overlay, ListStep, "", "", false, EmptyCard, s.countdown, "")
  }

  /** One second of the result screen's countdown. */
  function Tick(s: Session): Session {
    if s.countdown <= 1 then s.(step := ListStep, countdown := CountdownStart)
    else s.(countdown := s.countdown - 1)
  }

  /** The payment-mode select. */
  function ModeChange(s: Session, m: Mode): Session {
    s.(mode := m, step := ListStep)
  }

  /** The field handlers. */
  function TypePin(s: Session, typed: string): Session { s.(upiPin := PinInput(s.upiPin, typed)) }
  function TypeCvv(s: Session, typed: string): Session { s.(card := s.card.(cvv := CvvInput(s.card.cvv, typed))) }
  function TypeExpiry(s: Session, typed: string): Session { s.(card := s.card.(expiry := ExpiryInput(typed))) }
  function TypeCardNumber(s: Session, typed: string): Session {
    s.(card := s.card.(number := FormattedCardNumber(typed)))
  }

  // ---------------------------------------------------------------- properties

  /** Choosing a method is deterministic: UPI leads to the bank list, card
      to the card form, anything else to processing with a request for the
      selected installment naming the chosen method. Only the method and
      the step change. */
  lemma MethodSelectRoutes(s: Session, m: string)
    requires s.selected.Some?
    ensures var (t, req) := MethodSelect(s, m);
      && t == s.(payMethod := m, step := t.step)
      && (m == UpiMethod ==> t.step == BankStep && req == None)
      && (m == CardMethod ==> t.step == CardStep && req == None)
      && (m != UpiMethod && m != CardMethod ==>
            t.step == ProcessingStep && req == Some(PayRequest(s.selected.value, m)))
  {
  }

  /** As written, a net-banking click after a UPI attempt sends the bank's
      name, and one from a fresh session sends an empty method. */
  lemma StaleNetBankingRequest(s: Session)
    requires s.selected.Some?
    ensures s.payMethod == UpiMethod ==>
      MethodSelectAsWritten(s, "netbanking").1 == Some(PayRequest(s.selected.value, s.bank))
    ensures s.payMethod == "" ==>
      MethodSelectAsWritten(s, "netbanking").1 == Some(PayRequest(s.selected.value, ""))
  {
  }

  /** The two differ exactly when the earlier method was another one. */
  lemma StaleRequestDiffers(s: Session, m: string)
    requires s.selected.Some? && m != UpiMethod && m != CardMethod
    ensures MethodSelectAsWritten(s, m).1 == MethodSelect(s, m).1 <==> RequestMethod(s.payMethod, s.bank) == m
  {
  }

  /** The PIN step moves on exactly for a four-digit PIN, and then sends the
      request for the chosen bank. */
  lemma UpiPinSubmitIff(s: Session)
    requires s.selected.Some?
    ensures UpiPinSubmit(s).0.step == ProcessingStep <==> |s.upiPin| == PinLength || s.step == ProcessingStep
    ensures UpiPinSubmit(s).1.Some? <==> |s.upiPin| == PinLength
    ensures UpiPinSubmit(s).1.Some? && s.payMethod == UpiMethod ==>
      UpiPinSubmit(s).1.value == PayRequest(s.selected.value, s.bank)
  {
  }

  /** The card form moves on exactly when all four fields are filled. */
  lemma CardSubmitIff(s: Session)
    requires s.selected.Some?
    ensures CardSubmit(s).1.Some? <==> CardComplete(s.card)
    ensures CardSubmit(s).1.Some? ==> CardSubmit(s).0 == s.(step := ProcessingStep)
    ensures CardSubmit(s).1.None? ==> CardSubmit(s).0 == s
  {
  }

  /** A successful payment records PAID for the selected installment with
      the server's transaction id and method, touches no other record, and
      the installment is then paid. */
  lemma PaymentSucceededRecords(s: Session, txn: string, paymentMethod: string, today: string, e: Emi)
    requires s.selected.Some?
    ensures var t := PaymentResult(s, Succeeded(txn, paymentMethod), today);
      && t.step == SuccessStep
      && t.overlay[s.selected.value] == Paid(txn, paymentMethod, today)
      && (forall k :: k in s.overlay && k != s.selected.value ==> k in t.overlay && t.overlay[k] == s.overlay[k])
      && t.overlay.Keys == s.overlay.Keys + {s.selected.value}
      && (e.id == s.selected.value ==> IsPaid(e, t.overlay))
  {
  }

  /** A declined payment records FAILED with the server's message, or the
      default text when there is none, and shows the reason. */
  lemma PaymentDeclinedRecords(s: Session, message: Option<string>, today: string)
    requires s.selected.Some?
    ensures var t := PaymentResult(s, Declined(message), today);
      && t.step == FailureStep
      && t.failureReason == (if Truthy(message) then message.value else DefaultFailure)
      && t.overlay[s.selected.value] == Failed(t.failureReason)
      && (forall k :: k in s.overlay && k != s.selected.value ==> k in t.overlay && t.overlay[k] == s.overlay[k])
      && t.overlay.Keys == s.overlay.Keys + {s.selected.value}
  {
  }

  /** After a successful payment in sequential mode the list moves on: the
      paid installment is no longer the one shown. */
  lemma SequentialMovesOn(s: Session, emis: seq<Emi>, txn: string, paymentMethod: string, today: string)
    requires s.selected.Some?
    ensures var t := PaymentResult(s, Succeeded(txn, paymentMethod), today);
      forall e :: e in DisplayEmis(SequentialMode, emis, t.overlay) ==> e.id != s.selected.value
  {
  }

  /** Retry goes back to the methods with the same installment and no
      reason shown; "Change Method" keeps everything typed so far. */
  lemma RetryAndChangeMethod(s: Session)
    ensures Retry(s) == s.(step := MethodStep, failureReason := "")
    ensures var t := ChangeMethod(s);
      t.step == MethodStep && t.selected == s.selected && t.upiId == s.upiId
      && t.upiPin == s.upiPin && t.card == s.card && t.overlay == s.overlay
    ensures Retry(s).selected == s.selected && Retry(s).countdown == s.countdown
  {
  }

  /** Reset returns to the list with every choice and field cleared, and
      keeps the payments recorded in this dialog, the mode and the
      countdown. */
  lemma ResetClears(s: Session)
    ensures var t := Reset(s);
      && t.step == ListStep && t.selected == None && t.payMethod == "" && t.bank == ""
      && t.upiId == "" && t.upiPin == "" && !t.upiVerified && t.card == EmptyCard && t.failureReason == ""
      && t.overlay == s.overlay && t.mode == s.mode && t.countdown == s.countdown
    ensures Reset(Reset(s)) == Reset(s)
    ensures Valid(s) ==> Valid(Reset(s))
  {
  }

  /** `n` seconds of the countdown. */
  function Ticks(s: Session, n: nat): Session
    decreases n
  {
    if n == 0 then s else Ticks(Tick(s), n - 1)
  }

  /** On a result screen the countdown runs its remaining seconds without
      leaving the screen, and the last one returns to the list with the
      countdown back at five; nothing else changes. */
  lemma {:induction false} CountdownReturnsToList(s: Session, k: nat)
    requires 1 <= s.countdown <= CountdownStart && k < s.countdown
    ensures Ticks(s, k) == s.(countdown := s.countdown - k)
    ensures Ticks(s, s.countdown) == s.(step := ListStep, countdown := CountdownStart)
    decreases s.countdown
  {
    if s.countdown > 1 {
      var t := Tick(s);
      assert t == s.(countdown := s.countdown - 1);
      if k > 0 {
        CountdownReturnsToList(t, k - 1);
      }
      CountdownReturnsToList(t, 0);
      assert Ticks(s, s.countdown) == Ticks(t, t.countdown);
    }
  }

  /** From a fresh countdown a result screen closes after five seconds. */
  lemma FiveTicksReturnToList(s: Session)
    requires s.countdown == CountdownStart && (s.step == SuccessStep || s.step == FailureStep)
    ensures Ticks(s, 5).step == ListStep && Ticks(s, 5).countdown == CountdownStart
    ensures forall k :: 0 <= k < 5 ==> Ticks(s, k).step == s.step
  {
    forall k | 0 <= k < 5 ensures Ticks(s, k).step == s.step {
      CountdownReturnsToList(s, k);
    }
    CountdownReturnsToList(s, 0);
  }

  /** Changing the mode always shows the list. */
  lemma ModeChangeShowsList(s: Session, m: Mode)
    ensures ModeChange(s, m).step == ListStep && ModeChange(s, m).mode == m
    ensures ModeChange(s, m).overlay == s.overlay && ModeChange(s, m).selected == s.selected
  {
  }

  /** The PIN and CVV fields keep their shape under any typing, and the
      card form only changes the field typed in. */
  lemma FieldHandlersKeepShape(s: Session, typed: string)
    requires Valid(s)
    ensures Valid(TypePin(s, typed)) && Valid(TypeCvv(s, typed))
    ensures Valid(TypeExpiry(s, typed)) && Valid(TypeCardNumber(s, typed))
  {
    LimitedDigitsKeepsShape(s.upiPin, typed, PinLength);
    LimitedDigitsKeepsShape(s.card.cvv, typed, CvvLength);
  }

  // ---------------------------------------------------------------- the component

  class EmiDialogState {
    const emis: seq<Emi>
    var mode: Mode
    var selected: Option<int>
    var payMethod: string
    var bank: string
    var overlay: map<int, PaymentRecord>
    var step: Step
    var upiId: string
    var upiPin: string
    var upiVerified: bool
    var card: CardDetails
    var countdown: int
    var failureReason: string

    function State(): Session
      reads this
    {
      Session(mode, selected, payMethod, bank, overlay, step, upiId, upiPin, upiVerified, card, countdown, failureReason)
    }

    ghost predicate Inv()
      reads this
    {
      Valid(State())
    }

    constructor (paymentMode: Mode, loanEmis: seq<Emi>)
      ensures State() == InitialSession(paymentMode) && emis == loanEmis && Inv()
    {
      emis := loanEmis;
      mode, selected, payMethod, bank, overlay := paymentMode, None, "", "", map[];
      step, upiId, upiPin, upiVerified := ListStep, "", "", false;
      card, countdown, failureReason := EmptyCard, CountdownStart, "";
    }

    /** The installments shown. */
    function Displayed(): seq<Emi>
      reads this
    {
      DisplayEmis(mode, emis, overlay)
    }

    /** The Pay button of an unpaid row in the list. */
    method HandlePaymentClick(id: int)
      requires Inv() && step == ListStep && PayOffered(mode, emis, overlay, id)
      modifies this
      ensures State() == PaymentClick(old(State()), id) && Inv()
    {
      selected := Some(id);
      step := MethodStep;
    }

    method HandleMethodSelect(m: string) returns (request: Option<PayRequest>)
      requires Inv() && step == MethodStep
      modifies this
      ensures (State(), request) == MethodSelect(old(State()), m) && Inv()
    {
      payMethod := m;
      if m == UpiMethod {
        step := BankStep;
        request := None;
      } else if m == CardMethod {
        step := CardStep;
        request := None;
      } else {
        step := ProcessingStep;
        request := Some(PayRequest(selected.value, RequestMethod(m, bank)));
      }
    }

    method HandleBankSelect(b: string)
      requires Inv() && step == BankStep
      modifies this
      ensures State() == BankSelect(old(State()), b) && Inv()
    {
      bank := b;
      step := UpiVerifyStep;
    }

    method HandleUpiVerifySubmit()
      requires Inv() && step == UpiVerifyStep
      modifies this
      ensures State() == UpiVerifySubmit(old(State())) && Inv()
    {
      if upiId != "" {
        upiVerified := true;
        step := UpiPinStep;
      }
    }

    method HandleUpiPinSubmit() returns (request: Option<PayRequest>)
      requires Inv() && step == UpiPinStep
      modifies this
      ensures (State(), request) == UpiPinSubmit(old(State())) && Inv()
    {
      request := None;
      if |upiPin| == PinLength {
        step := ProcessingStep;
        request := Some(PayRequest(selected.value, RequestMethod(payMethod, bank)));
      }
    }

    method HandleCardSubmit() returns (request: Option<PayRequest>)
      requires Inv() && step == CardStep
      modifies this
      ensures (State(), request) == CardSubmit(old(State())) && Inv()
    {
      request := None;
      if card.number != "" && card.expiry != "" && card.cvv != "" && card.name != "" {
        step := ProcessingStep;
        request := Some(PayRequest(selected.value, RequestMethod(payMethod, bank)));
      }
    }

    /** The payment service's answer arrives. */
    method ReceivePaymentResult(outcome: PayOutcome, today: string)
      requires Inv() && step == ProcessingStep
      modifies this
      ensures State() == PaymentResult(old(State()), outcome, today) && Inv()
    {
      var id := selected.value;
      match outcome
      case Succeeded(txn, paymentMethod) =>
        overlay := overlay[id := Paid(txn, paymentMethod, today)];
        step := SuccessStep;
      case Declined(message) =>
        var reason := OrElse(message, DefaultFailure);
        failureReason := reason;
        overlay := overlay[id := Failed(reason)];
        step := FailureStep;
    }

    method HandleRetryPayment()
      requires Inv() && step == FailureStep
      modifies this
      ensures State() == Retry(old(State())) && Inv()
    {
      step := MethodStep;
      failureReason := "";
    }

    method HandleChangeMethod()
      requires Inv() && step in {BankStep, UpiVerifyStep, UpiPinStep, CardStep}
      modifies this
      ensures State() == ChangeMethod(old(State())) && Inv()
    {
      step := MethodStep;
    }

    /** The Back button of the method step and the dialog's closing. */
    method ResetPaymentFlow()
      requires Inv()
      modifies this
      ensures State() == Reset(old(State())) && Inv()
    {
      ResetClears(State());
      step, selected, payMethod, bank := ListStep, None, "", "";
      upiId, upiPin, upiVerified, failureReason := "", "", false, "";
      card := EmptyCard;
    }

    /** One second on a result screen. */
    method CountdownTick()
      requires Inv() && (step == SuccessStep || step == FailureStep)
      modifies this
      ensures State() == Tick(old(State())) && Inv()
    {
      if countdown <= 1 {
        step := ListStep;
        countdown := CountdownStart;
      } else {
        countdown := countdown - 1;
      }
    }

    method HandleModeChange(m: Mode)
      requires Inv()
      modifies this
      ensures State() == ModeChange(old(State()), m) && Inv()
    {
      mode := m;
      step := ListStep;
    }

    /** Opening the dialog takes the mode the caller asks for. */
    method DialogOpened(paymentMode: Mode)
      requires Inv()
      modifies this
      ensures State() == old(State()).(mode := paymentMode) && Inv()
    {
      mode := paymentMode;
    }

    method HandleUpiIdChange(typed: string)
      requires Inv()
      modifies this
      ensures State() == old(State()).(upiId := typed) && Inv()
    {
      upiId := typed;
    }

    method HandlePinChange(typed: string)
      requires Inv()
      modifies this
      ensures State() == TypePin(old(State()), typed) && Inv()
    {
      FieldHandlersKeepShape(State(), typed);
      upiPin := PinInput(upiPin, typed);
    }

    method HandleCvvChange(typed: string)
      requires Inv()
      modifies this
      ensures State() == TypeCvv(old(State()), typed) && Inv()
    {
      FieldHandlersKeepShape(State(), typed);
      card := card.(cvv := CvvInput(card.cvv, typed));
    }

    method HandleExpiryChange(typed: string)
      requires Inv()
      modifies this
      ensures State() == TypeExpiry(old(State()), typed) && Inv()
    {
      card := card.(expiry := ExpiryInput(typed));
    }

    method HandleCardNumberChange(typed: string)
      requires Inv()
      modifies this
      ensures State() == TypeCardNumber(old(State()), typed) && Inv()
    {
      var formatted := FormatCardNumber(typed);
      card := card.(number := formatted);
    }

    method HandleCardNameChange(typed: string)
      requires Inv()
      modifies this
      ensures State() == old(State()).(card := old(State()).card.(name := typed)) && Inv()
    {
      card := card.(name := typed);
    }
  }

  /** Paying an installment by card from the list: the request names the
      card method, and a successful answer leaves the installment paid and
      the success screen showing. */
  method PayByCard(d: EmiDialogState, id: int, c: CardDetails, txn: string, today: string)
      returns (request: Option<PayRequest>)
    requires d.Inv() && d.step == ListStep && PayOffered(d.mode, d.emis, d.overlay, id)
    requires AllDigits(c.cvv) && |c.cvv| <= CvvLength && CardComplete(c)
    modifies d
    ensures request == Some(PayRequest(id, CardMethod))
    ensures d.step == SuccessStep && id in d.overlay && d.overlay[id] == Paid(txn, CardMethod, today)
    ensures forall e :: e in d.emis && e.id == id ==> IsPaid(e, d.overlay)
  {
    d.HandlePaymentClick(id);
    var none := d.HandleMethodSelect(CardMethod);
    d.card := c;
    request := d.HandleCardSubmit();
    d.ReceivePaymentResult(Succeeded(txn, CardMethod), today);
  }
}
