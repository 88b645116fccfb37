/** The credit eligibility gate shared by the navigation bar and the
    applications list: the two stored credit flags are read back from
    storage and the "apply for a loan" entry points are refused unless a
    check was made and the score is above 600. */
module Eligibility {
  import opened JsText
  import opened BrowserStorage
  import CreditScore

  /** The two flags as a component holds them after reading storage. */
  datatype CreditFlags = CreditFlags(hasChecked: bool, score: Option<int>)

  /** Scores at or below this value are refused by the gate. */
  const GateThreshold: int := 600

  const CreditScorePath := "/credit-score"
  const NotCheckedMessage := "Please check your credit score first!"
  const LowScoreMessage := "Your credit score is too low to apply for a loan."

  /** checkCreditScoreStatus: the flag is set only by the exact text "true";
      the score is parseInt of the stored text, `|| null` turning both NaN
      and 0 into null. */
  function ReadCreditFlags(items: map<string, string>): (f: CreditFlags)
    ensures f.hasChecked <==> HasCheckedKey in items && items[HasCheckedKey] == "true"
    ensures f.score.Some? ==> f.score.value != 0
    ensures f.score.Some? ==>
      CreditScoreKey in items && ParseInt(items[CreditScoreKey]) == f.score
  {
    var checked := HasCheckedKey in items && items[HasCheckedKey] == "true";
    var parsed := if CreditScoreKey in items then ParseInt(items[CreditScoreKey]) else None;
    var score := if parsed.Some? && parsed.value != 0 then parsed else None;
    CreditFlags(checked, score)
  }

  /** The number a null score becomes in `creditScore <= 600`. */
  function ComparedScore(score: Option<int>): int {
    if score.Some? then score.value else 0
  }

  datatype GateOutcome = NotChecked | ScoreTooLow | Allowed

  /** The three-way decision of handleApplyLoanClick / handleNewApplicationClick. */
  function Gate(f: CreditFlags): (g: GateOutcome)
    ensures g == Allowed <==> f.hasChecked && f.score.Some? && f.score.value > GateThreshold
    ensures g == NotChecked <==> !f.hasChecked
  {
    if !f.hasChecked then NotChecked
    else if ComparedScore(f.score) <= GateThreshold then ScoreTooLow
    else Allowed
  }

  /** The `disabled` condition of the apply buttons. */
  predicate ApplyDisabled(f: CreditFlags) {
    !f.hasChecked || ComparedScore(f.score) <= GateThreshold
  }

  /** A button is disabled under exactly the condition the gate refuses. */
  lemma DisabledIffRefused(f: CreditFlags)
    ensures ApplyDisabled(f) <==> Gate(f) != Allowed
  {
  }

  /** After the credit-check page has stored a score, every reader of the
      flags sees that check and that score. */
  lemma {:induction false} StoredCheckIsRead(items: map<string, string>, pan: string)
    ensures ReadCreditFlags(items[HasCheckedKey := "true"][CreditScoreKey := IntToString(CreditScore.ScoreOf(pan))])
      == CreditFlags(true, Some(CreditScore.ScoreOf(pan)))
  {
    ParseIntToString(CreditScore.ScoreOf(pan));
  }

  /** A stored score opens the gate exactly when it is above 600. */
  lemma StoredCheckGate(items: map<string, string>, pan: string)
    ensures Gate(ReadCreditFlags(items[HasCheckedKey := "true"][CreditScoreKey := IntToString(CreditScore.ScoreOf(pan))]))
      == (if CreditScore.ScoreOf(pan) > GateThreshold then Allowed else ScoreTooLow)
  {
    StoredCheckIsRead(items, pan);
  }

  /** A score of exactly 600 is shown with the "Apply for a Loan" link by the
      credit-check page but refused by the gate. */
  lemma ThresholdsDisagreeAt600()
    ensures CreditScore.ApplyLinkThreshold <= 600
    ensures Gate(CreditFlags(true, Some(600))) == ScoreTooLow
  {
  }

  /** With the flags removed from storage (logout), the gate refuses. */
  lemma ClearedStorageNotChecked(items: map<string, string>)
    ensures Gate(ReadCreditFlags(items - {UserKey, HasCheckedKey, CreditScoreKey})) == NotChecked
  {
  }
}
