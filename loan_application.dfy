/** The four-step loan application wizard: personal details, loan details
    with the PAN and its simulated credit score, the two PDF uploads, and
    the review step that posts the application. */
module LoanApplication {
  import opened JsText
  import opened CreditScore

  // ---------------------------------------------------------------- the score

  /** hashCode: the absolute value of the rolling hash of the upper-cased text. */
  method HashCode(str: string) returns (r: int)
    ensures r == Abs(PanHash(ToUpper(str)))
    ensures 0 <= r <= TwoTo31
  {
    var s := ToUpper(str);
    var hash := 0;
    for i := 0 to |s|
      invariant hash == PanHash(s[..i])
    {
      assert s[..i + 1][..i] == s[..i];
      LoopStepIsHashStep(hash, s[i]);
      hash := LoopStep(hash, s[i]);
    }
    assert s[..|s|] == s;
    r := Abs(hash);
  }

  /** The shortest text the score chip is computed for. */
  const MinScoredLength := 5

  /** What getCreditScoreFromPan returns: nothing ("") for a missing or
      short text, otherwise the score. */
  function PanScore(pan: string): (r: Option<int>)
    ensures r.None? <==> |pan| < MinScoredLength
    ensures r.Some? ==> MinScore <= r.value <= MaxScore
  {
    if |pan| < MinScoredLength then None else Some(ScoreOf(pan))
  }

  /** getCreditScoreFromPan: the same loop as the credit-check page, behind
      a length guard. */
  method GetCreditScoreFromPan(pan: string) returns (r: Option<int>)
    ensures r == PanScore(pan)
  {
    if |pan| < MinScoredLength {
      return None;
    }
    var upper := ToUpper(pan);
    var hash := 0;
    for i := 0 to |upper|
      invariant hash == PanHash(upper[..i])
    {
      assert upper[..i + 1][..i] == upper[..i];
      LoopStepIsHashStep(hash, upper[i]);
      hash := LoopStep(hash, upper[i]);
    }
    assert upper[..|upper|] == upper;
    r := Some(MinScore + Abs(hash) % 301);
  }

  /** The wizard and the credit-check page agree: for any text of five or
      more characters the wizard's score is the page's score, and every
      accepted PAN gets one. */
  lemma WizardScoreAgreesWithPage(pan: string)
    ensures |pan| >= MinScoredLength ==> PanScore(pan) == Some(ScoreOf(pan))
    ensures IsPan(pan) ==> PanScore(pan).Some?
  {
  }

  /** The score chip is green exactly when the score reaches 600; a short
      text gets no chip. */
  predicate ChipIsGreen(pan: string) {
    var r := PanScore(pan);
    r.Some? && r.value >= ApplyLinkThreshold
  }

  // ---------------------------------------------------------------- the amount

  predicate AllDigitChars(s: string) {
    forall i :: 0 <= i < |s| ==> IsDigit(s[i])
  }

  /** The text without a leading sign. */
  function Unsigned(s: string): string {
    if s != [] && (s[0] == '-' || s[0] == '+') then s[1..] else s
  }

  /** The digits before the decimal point. */
  function IntegerDigits(s: string): (d: string)
    ensures AllDigitChars(d)
  {
    DigitPrefix(Unsigned(s))
  }

  /** A number the amount field can hold: an optional sign, digits with an
      optional fraction, or a fraction alone. */
  predicate IsDecimalText(s: string) {
    var u := Unsigned(s);
    var d := DigitPrefix(u);
    var rest := u[|d|..];
    && (rest == [] || (rest[0] == '.' && AllDigitChars(rest[1..])))
    && (d != [] || |rest| >= 2)
  }

  /** Number(s) with its fraction cut off, for a decimal text; NaN is None. */
  function TruncatedNumber(s: string): (r: Option<int>)
    ensures r.Some? <==> IsDecimalText(s)
  {
    if !IsDecimalText(s) then None
    else if s != [] && s[0] == '-' then Some(0 - DecimalValue(IntegerDigits(s)))
    else Some(DecimalValue(IntegerDigits(s)))
  }

  const MinLoanAmount := 100000

  /** The amount check of step 1: present, a number, and not below one
      lakh. A number is below the bound exactly when its truncation is. */
  predicate AmountAccepted(s: string) {
    var n := TruncatedNumber(s);
    s != "" && n.Some? && !(n.value < MinLoanAmount)
  }

  /** The amount is accepted exactly when it is a non-negative decimal whose
      whole part is at least 100000. */
  lemma AmountAcceptedIff(s: string)
    ensures AmountAccepted(s) <==>
      IsDecimalText(s) && !(s != [] && s[0] == '-') && DecimalValue(IntegerDigits(s)) >= MinLoanAmount
  {
  }

  /** A plain whole number of rupees is accepted exactly from 100000 on. */
  lemma {:induction false} WholeAmountAccepted(n: nat)
    ensures AmountAccepted(NatToString(n)) <==> n >= MinLoanAmount
  {
    var s := NatToString(n);
    DigitPrefixOfDigits(s);
    NatToStringValue(n);
    assert Unsigned(s) == s;
    assert s[|s|..] == [];
  }

  /** A whole number written with a leading '+' is read like the plain one. */
  lemma {:induction false} SignedAmountAccepted(n: nat)
    ensures AmountAccepted("+" + NatToString(n)) <==> n >= MinLoanAmount
  {
    var s := NatToString(n);
    var t := "+" + s;
    DigitPrefixOfDigits(s);
    NatToStringValue(n);
    assert Unsigned(t) == s;
    assert s[|s|..] == [];
  }

  // ---------------------------------------------------------------- the form

  datatype FormData = FormData(
    name: string, profession: string, purpose: string,
    loanAmount: string, panCard: string, tenureInMonths: string)

  /** An uploaded file, known here by its name. */
  datatype FileRef = FileRef(fileName: string)

  datatype Files = Files(pfAccountPdf: Option<FileRef>, salarySlip: Option<FileRef>)

  datatype Field = NameField | ProfessionField | PurposeField | LoanAmountField | PanCardField | TenureField

  datatype FileSlot = PfAccountSlot | SalarySlipSlot

  /** The user record read from storage; absent keys are None. The id is
      the number the server assigned, so `!user.id` refuses 0 as well. */
  datatype User = User(name: Option<string>, id: Option<int>)

  const LastStep := 3

  /** The requirement a step's check found unmet. */
  datatype StepError =
    | NameRequired | ProfessionRequired | PurposeRequired | AmountTooLow | PanRequired
    | PanInvalid | TenureRequired | PfRequired | SalarySlipRequired

  /** The text validateStep returns for each unmet requirement. */
  function Message(e: StepError): (m: string)
    ensures m != ""
  {
    match e
    case NameRequired => "Name is required"
    case ProfessionRequired => "Profession is required"
    case PurposeRequired => "Purpose is required"
    case AmountTooLow => "Loan amount must be at least ₹1,00,000"
    case PanRequired => "PAN card is required"
    case PanInvalid => "Enter a valid PAN card (e.g. ABCDE1234F)"
    case TenureRequired => "Please select a loan tenure"
    case PfRequired => "PF Account Statement PDF is required"
    case SalarySlipRequired => "Salary Slip PDF is required"
  }

  const LoginRequired := "Please log in to apply for a professional loan"
  const SubmitSucceeded := "Professional loan application submitted successfully!"
  const SubmitFailed := "Application failed"

  /** Which step renders a field. */
  function FieldStep(f: Field): int {
    match f
    case NameField => 0
    case ProfessionField => 0
    case _ => 1
  }

  function FieldValue(form: FormData, f: Field): string {
    match f
    case NameField => form.name
    case ProfessionField => form.profession
    case PurposeField => form.purpose
    case LoanAmountField => form.loanAmount
    case PanCardField => form.panCard
    case TenureField => form.tenureInMonths
  }

  function SetField(form: FormData, f: Field, value: string): (r: FormData)
    ensures FieldValue(r, f) == value
    ensures forall g :: g != f ==> FieldValue(r, g) == FieldValue(form, g)
  {
    match f
    case NameField => form.(name := value)
    case ProfessionField => form.(profession := value)
    case PurposeField => form.(purpose := value)
    case LoanAmountField => form.(loanAmount := value)
    case PanCardField => form.(panCard := value)
    case TenureField => form.(tenureInMonths := value)
  }

  /** handleChange: the PAN is stored upper-cased, every other field as typed. */
  function ChangeField(form: FormData, f: Field, value: string): FormData {
    SetField(form, f, if f == PanCardField then ToUpper(value) else value)
  }

  /** handleChange writes the named field only, and changes the text only
      for the PAN, which it upper-cases. */
  lemma ChangeFieldWritesOne(form: FormData, f: Field, value: string)
    ensures FieldValue(ChangeField(form, f, value), f) == (if f == PanCardField then ToUpper(value) else value)
    ensures forall g :: g != f ==> FieldValue(ChangeField(form, f, value), g) == FieldValue(form, g)
    ensures f == PanCardField ==> ToUpper(FieldValue(ChangeField(form, f, value), f)) == FieldValue(ChangeField(form, f, value), f)
  {
    if f == PanCardField {
      ToUpperIdempotent(value);
    }
  }

  /** A PAN typed in lower case passes the check once the field has
      upper-cased it. */
  lemma LowerCasePanAccepted(form: FormData, typed: string)
    requires IsPan(ToUpper(typed))
    ensures IsPan(ChangeField(form, PanCardField, typed).panCard)
  {
  }

  /** What the first step asks for: a name that is not blank (not only
      whitespace) and a profession. */
  predicate PersonalComplete(form: FormData) {
    !AllSpace(form.name) && |form.profession| > 0
  }

  /** What the second step asks for: a purpose, an amount of at least one
      lakh, a PAN of the shape AAAAA9999A and a tenure. */
  predicate LoanDetailsComplete(form: FormData) {
    |form.purpose| > 0 && AmountAccepted(form.loanAmount) && IsPan(form.panCard) && |form.tenureInMonths| > 0
  }

  /** What the third step asks for: both PDFs. */
  predicate DocumentsComplete(files: Files) {
    files.pfAccountPdf.Some? && files.salarySlip.Some?
  }

  /** validateStep: the first unmet requirement of the given step, or
      nothing (the empty message) when it has none. */
  function ValidateStep(step: int, form: FormData, files: Files): Option<StepError>
  {
    if step == 0 && |Trim(form.name)| == 0 then Some(NameRequired)
    else if step == 0 && |form.profession| == 0 then Some(ProfessionRequired)
    else if step == 1 && |form.purpose| == 0 then Some(PurposeRequired)
    else if step == 1 && !AmountAccepted(form.loanAmount) then Some(AmountTooLow)
    else if step == 1 && |Trim(form.panCard)| == 0 then Some(PanRequired)
    else if step == 1 && !IsPan(form.panCard) then Some(PanInvalid)
    else if step == 1 && |form.tenureInMonths| == 0 then Some(TenureRequired)
    else if step == 2 && files.pfAccountPdf.None? then Some(PfRequired)
    else if step == 2 && files.salarySlip.None? then Some(SalarySlipRequired)
    else None
  }

  /** The first step passes exactly for a name that is not blank and a
      profession. */
  lemma ValidatePersonal(form: FormData, files: Files)
    ensures ValidateStep(0, form, files) == None <==> PersonalComplete(form)
    ensures AllSpace(form.name) ==> ValidateStep(0, form, files) == Some(NameRequired)
  {
    TrimEmpty(form.name);
  }

  /** An accepted PAN is never blank, so the "required" message can only
      come for a blank field. */
  lemma PanNotBlank(pan: string)
    requires IsPan(pan)
    ensures |Trim(pan)| > 0
  {
    TrimEmpty(pan);
    assert !IsSpace(pan[0]);
  }

  /** The second step passes exactly when purpose, amount, PAN and tenure
      are all acceptable; the amount is the first thing reported after the
      purpose, and a PAN of the wrong shape is reported as missing or
      invalid. */
  lemma ValidateLoanDetails(form: FormData, files: Files)
    ensures ValidateStep(1, form, files) == None <==> LoanDetailsComplete(form)
    ensures |form.purpose| > 0 && !AmountAccepted(form.loanAmount) ==> ValidateStep(1, form, files) == Some(AmountTooLow)
    ensures |form.purpose| > 0 && AmountAccepted(form.loanAmount) && !IsPan(form.panCard) ==>
      ValidateStep(1, form, files) == Some(PanRequired) || ValidateStep(1, form, files) == Some(PanInvalid)
  {
    if IsPan(form.panCard) {
      PanNotBlank(form.panCard);
    }
  }

  /** A step's check passes exactly when the step has what it asks for;
      the review step has nothing to check. */
  lemma ValidateStepMeaning(step: int, form: FormData, files: Files)
    ensures step == 0 ==> (ValidateStep(step, form, files) == None <==> PersonalComplete(form))
    ensures step == 1 ==> (ValidateStep(step, form, files) == None <==> LoanDetailsComplete(form))
    ensures step == 2 ==> (ValidateStep(step, form, files) == None <==> DocumentsComplete(files))
    ensures step !in {0, 1, 2} ==> ValidateStep(step, form, files) == None
  {
    if step == 0 {
      ValidatePersonal(form, files);
    } else if step == 1 {
      ValidateLoanDetails(form, files);
    }
  }

  /** Everything the application needs, stated once for the whole form. */
  predicate ApplicationComplete(form: FormData, files: Files) {
    PersonalComplete(form) && LoanDetailsComplete(form) && DocumentsComplete(files)
  }

  /** The steps' checks together are exactly the complete application, and
      a complete one carries a PAN with a score of its own. */
  lemma StepsCoverApplication(form: FormData, files: Files)
    ensures (forall k :: 0 <= k < LastStep ==> ValidateStep(k, form, files) == None) <==> ApplicationComplete(form, files)
    ensures ApplicationComplete(form, files) ==> PanScore(form.panCard) == Some(ScoreOf(form.panCard))
  {
    ValidatePersonal(form, files);
    ValidateLoanDetails(form, files);
    ValidateStepMeaning(2, form, files);
    if forall k :: 0 <= k < LastStep ==> ValidateStep(k, form, files) == None {
      assert ValidateStep(0, form, files) == None;
      assert ValidateStep(1, form, files) == None;
      assert ValidateStep(2, form, files) == None;
    }
  }


  /** Every step before `step` has what it asks for. */
  predicate StepsBeforePass(step: int, form: FormData, files: Files) {
    && (step > 0 ==> PersonalComplete(form))
    && (step > 1 ==> LoanDetailsComplete(form))
    && (step > 2 ==> DocumentsComplete(files))
  }

  /** What is posted: the six fields, the user's id and the files present. */
  datatype Application = Application(form: FormData, userId: int, pfAccountPdf: Option<FileRef>, salarySlip: Option<FileRef>)

  /** What the server answers to the post. */
  datatype PostOutcome = Accepted | Refused(message: Option<string>)

  // ---------------------------------------------------------------- the component

  class LoanWizard {
    const user: User
    var form: FormData
    var files: Files
    var step: int
    var error: string
    var success: string
    var loading: bool

    /** The wizard's invariant: the step is one of the four, and every step
        already passed still validates. */
    ghost predicate Valid()
      reads this`step, this`form, this`files
    {
      0 <= step <= LastStep && StepsBeforePass(step, form, files)
    }

    /** The form starts empty except for the name, taken from the stored user. */
    constructor (storedUser: User)
      ensures user == storedUser
      ensures form == FormData(OrElse(storedUser.name, ""), "", "", "", "", "")
      ensures files == Files(None, None) && step == 0 && error == "" && success == "" && !loading
      ensures Valid()
    {
      user := storedUser;
      form := FormData(OrElse(storedUser.name, ""), "", "", "", "", "");
      files := Files(None, None);
      step, error, success, loading := 0, "", "", false;
    }

    /** handleChange, for a field the current step renders. */
    method HandleChange(f: Field, value: string)
      requires Valid() && FieldStep(f) == step
      modifies this
      ensures form == ChangeField(old(form), f, value)
      ensures files == old(files) && step == old(step) && error == old(error)
      ensures success == old(success) && loading == old(loading)
      ensures Valid()
    {
      var v := value;
      if f == PanCardField {
        v := ToUpper(value);
      }
      form := SetField(form, f, v);
    }

    /** handleFileChange: a chosen file fills its slot; no choice keeps it. */
    method HandleFileChange(slot: FileSlot, selected: Option<FileRef>)
      requires Valid() && step == 2
      modifies this
      ensures selected.Some? && slot == PfAccountSlot ==> files == old(files).(pfAccountPdf := selected)
      ensures selected.Some? && slot == SalarySlipSlot ==> files == old(files).(salarySlip := selected)
      ensures selected.None? ==> files == old(files)
      ensures form == old(form) && step == old(step) && error == old(error)
      ensures success == old(success) && loading == old(loading)
      ensures Valid()
    {
      if selected.Some? {
        if slot == PfAccountSlot {
          files := files.(pfAccountPdf := selected);
        } else {
          files := files.(salarySlip := selected);
        }
      }
    }

    /** removeFile */
    method RemoveFile(slot: FileSlot)
      requires Valid() && step == 2
      modifies this
      ensures slot == PfAccountSlot ==> files == old(files).(pfAccountPdf := None)
      ensures slot == SalarySlipSlot ==> files == old(files).(salarySlip := None)
      ensures form == old(form) && step == old(step) && error == old(error)
      ensures success == old(success) && loading == old(loading)
      ensures Valid()
    {
      if slot == PfAccountSlot {
        files := files.(pfAccountPdf := None);
      } else {
        files := files.(salarySlip := None);
      }
    }

    /** handleNext, offered before the last step. */
    method HandleNext()
      requires Valid() && step < LastStep && !loading
      modifies this
      ensures var err := ValidateStep(old(step), old(form), old(files));
        && (err.Some? ==> step == old(step) && error == Message(err.value))
        && (err.None? ==> step == old(step) + 1 && error == "")
      ensures form == old(form) && files == old(files) && success == old(success) && loading == old(loading)
      ensures Valid()
    {
      var err := ValidateStep(step, form, files);
      if err.Some? {
        error := Message(err.value);
        return;
      }
      ValidateStepMeaning(step, form, files);
      error := "";
      step := step + 1;
    }

    /** handleBack, offered after the first step. */
    method HandleBack()
      requires Valid() && step > 0 && !loading
      modifies this
      ensures step == old(step) - 1 && error == ""
      ensures form == old(form) && files == old(files) && success == old(success) && loading == old(loading)
      ensures Valid()
    {
      error := "";
      step := step - 1;
    }

    /** handleSubmit up to the post: a failing check shows its message, a
        user without an id is sent to the login page, and otherwise the
        application is posted. */
    method HandleSubmit() returns (posted: Option<Application>, navigateTo: Option<string>)
      requires Valid() && !loading
      modifies this
      ensures var err := ValidateStep(step, form, files);
        && (err.Some? ==> posted == None && navigateTo == None && error == Message(err.value) && !loading)
        && (err.None? && !TruthyNumber(user.id) ==> posted == None && navigateTo == Some("/login") && error == LoginRequired && !loading)
        && (err.None? && TruthyNumber(user.id) ==>
              posted == Some(Application(form, user.id.value, files.pfAccountPdf, files.salarySlip))
              && navigateTo == None && error == "" && success == "" && loading)
      ensures form == old(form) && files == old(files) && step == old(step)
      ensures posted.None? ==> success == old(success)
      ensures Valid()
    {
      posted, navigateTo := None, None;
      var err := ValidateStep(step, form, files);
      if err.Some? {
        error := Message(err.value);
        return;
      }
      if !TruthyNumber(user.id) {
        error := LoginRequired;
        navigateTo := Some("/login");
        return;
      }
      loading := true;
      error := "";
      success := "";
      posted := Some(Application(form, user.id.value, files.pfAccountPdf, files.salarySlip));
    }

    /** The answer to the post: success shows the message and goes to the
        dashboard (after two seconds); failure shows the server's message or
        a default. */
    method ReceiveSubmitResult(outcome: PostOutcome) returns (navigateTo: Option<string>)
      requires Valid() && loading
      modifies this
      ensures outcome.Accepted? ==> success == SubmitSucceeded && navigateTo == Some("/dashboard") && error == old(error)
      ensures outcome.Refused? ==> error == OrElse(outcome.message, SubmitFailed) && navigateTo == None && success == old(success)
      ensures !loading && form == old(form) && files == old(files) && step == old(step)
      ensures Valid()
    {
      navigateTo := None;
      loading := false;
      match outcome
      case Accepted =>
        success := SubmitSucceeded;
        navigateTo := Some("/dashboard");
      case Refused(message) =>
        error := OrElse(message, SubmitFailed);
    }
  }

  /** Submitting from the review step posts only complete applications: the
      review step's own check is empty, and the invariant carries the checks
      of the three steps before it. */
  method SubmitFromReview(w: LoanWizard) returns (posted: Option<Application>)
    requires w.Valid() && w.step == LastStep && !w.loading
    modifies w
    ensures posted.Some? ==> ApplicationComplete(posted.value.form, Files(posted.value.pfAccountPdf, posted.value.salarySlip))
    ensures posted.Some? ==> PanScore(posted.value.form.panCard).Some?
    ensures posted.None? <==> w.user.id.None? || w.user.id == Some(0)
  {
    var nav;
    posted, nav := w.HandleSubmit();
    StepsCoverApplication(w.form, w.files);
  }
}
