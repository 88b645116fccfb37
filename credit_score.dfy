/** The simulated credit score of the credit-check page: a PAN is accepted
    when it has the shape AAAAA9999A, and its score is derived from a 32-bit
    rolling hash of the upper-cased text. */
module CreditScore {
  import opened JsText
  import opened BrowserStorage

  const TwoTo31: int := 0x8000_0000
  const TwoTo32: int := 0x1_0000_0000

  const MinScore: int := 550
  const MaxScore: int := 850
  /** Scores at or above this value make the page offer "Apply for a Loan". */
  const ApplyLinkThreshold: int := 600

  const InvalidPanMessage := "Please enter a valid PAN number (e.g., ABCDE1234F)"

  predicate IsInt32(x: int) { -TwoTo31 <= x < TwoTo31 }

  /** The `x | 0` conversion: x modulo 2^32, read back as a signed value. */
  function ToInt32(x: int): (r: int)
    ensures IsInt32(r)
    ensures (r - x) % TwoTo32 == 0
    ensures IsInt32(x) ==> r == x
  {
    var m := x % TwoTo32;
    if m >= TwoTo31 then m - TwoTo32 else m
  }

  lemma ToInt32Congruent(x: int, y: int)
    requires (x - y) % TwoTo32 == 0
    ensures ToInt32(x) == ToInt32(y)
  {
    var k := (x - y) / TwoTo32;
    assert x == y + k * TwoTo32;
    assert x % TwoTo32 == y % TwoTo32;
  }

  /** charCodeAt: the UTF-16 code unit, which is the code point for the
      characters of the Basic Multilingual Plane. */
  function CharCode(c: char): int { c as int }

  /** `hash << 5` on a 32-bit value. */
  function ShiftLeft5(h: int): (r: int)
    requires IsInt32(h)
    ensures IsInt32(r)
  {
    ToInt32(h * 32)
  }

  /** One iteration of the loop exactly as the source spells it:
      `hash = (hash << 5) - hash + code; hash |= 0`. */
  function LoopStep(h: int, c: char): (r: int)
    requires IsInt32(h)
    ensures IsInt32(r)
  {
    ToInt32(ShiftLeft5(h) - h + CharCode(c))
  }

  /** The reference step of the rolling hash: int32(31 * h + code). */
  function HashStep(h: int, c: char): (r: int)
    ensures IsInt32(r)
  {
    ToInt32(31 * h + CharCode(c))
  }

  /** The shift-and-subtract spelling computes the 31-multiplier hash step. */
  lemma LoopStepIsHashStep(h: int, c: char)
    requires IsInt32(h)
    ensures LoopStep(h, c) == HashStep(h, c)
  {
    var x := ShiftLeft5(h) - h + CharCode(c);
    var y := 31 * h + CharCode(c);
    assert x - y == ShiftLeft5(h) - h * 32;
    ToInt32Congruent(x, y);
  }

  /** The hash of s: HashStep folded from 0 over the characters, left to right. */
  function PanHash(s: string): (h: int)
    ensures IsInt32(h)
  {
    if s == [] then 0 else HashStep(PanHash(s[..|s| - 1]), s[|s| - 1])
  }

  function Abs(x: int): nat { if x < 0 then -x else x }

  /** The score the page shows for a PAN: 550 + |hash| mod 301. */
  function ScoreOf(pan: string): (r: int)
    ensures MinScore <= r <= MaxScore
  {
    MinScore + Abs(PanHash(ToUpper(pan))) % 301
  }

  /** validatePanNumber: /^[A-Z]{5}[0-9]{4}[A-Z]{1}$/ */
  predicate IsPan(s: string) {
    && |s| == 10
    && (forall i :: 0 <= i < 5 ==> IsUpperAscii(s[i]))
    && (forall i :: 5 <= i < 9 ==> IsDigit(s[i]))
    && IsUpperAscii(s[9])
  }

  /** calculateCreditScore: the loop over the upper-cased PAN. */
  method CalculateCreditScore(pan: string) returns (score: int)
    ensures score == ScoreOf(pan)
    ensures MinScore <= score <= MaxScore
  {
    var upperPan := ToUpper(pan);
    var hash := 0;
    for i := 0 to |upperPan|
      invariant hash == PanHash(upperPan[..i])
    {
      assert upperPan[..i + 1][..i] == upperPan[..i];
      LoopStepIsHashStep(hash, upperPan[i]);
      hash := LoopStep(hash, upperPan[i]);
    }
    assert upperPan[..|upperPan|] == upperPan;
    var absHash := Abs(hash);
    score := MinScore + absHash % 301;
  }

  lemma UpperOfLower(s: string)
    ensures ToUpper(ToLower(s)) == ToUpper(s)
  {
    forall i | 0 <= i < |s|
      ensures ToUpper(ToLower(s))[i] == ToUpper(s)[i]
    {
      assert UpperChar(LowerChar(s[i])) == UpperChar(s[i]);
    }
  }

  /** The score ignores letter case: the lower-case, upper-case and
      original spellings of a PAN all score the same. */
  lemma ScoreIgnoresCase(pan: string)
    ensures ScoreOf(ToLower(pan)) == ScoreOf(pan)
    ensures ScoreOf(ToUpper(pan)) == ScoreOf(pan)
  {
    UpperOfLower(pan);
    ToUpperIdempotent(pan);
  }

  /** An accepted PAN is already in the normal form the field produces. */
  lemma PanIsUpperCase(s: string)
    requires IsPan(s)
    ensures ToUpper(s) == s
  {
    forall i | 0 <= i < |s| ensures ToUpper(s)[i] == s[i] {
      assert !IsLowerAscii(s[i]);
    }
  }

  /** The credit-check page: the PAN field, the score shown and the error line. */
  class CreditScorePage {
    var panNumber: string
    var creditScore: Option<int>
    var error: string

    constructor ()
      ensures panNumber == "" && creditScore == None && error == ""
    {
      panNumber := "";
      creditScore := None;
      error := "";
    }

    /** The field's onChange: the typed text is stored upper-cased. */
    method HandleChange(value: string)
      modifies this
      ensures panNumber == ToUpper(value)
      ensures creditScore == old(creditScore) && error == old(error)
    {
      panNumber := ToUpper(value);
    }

    /** handleSubmit: an invalid PAN sets the error and writes nothing; a
        valid one shows its score, stores both credit flags and broadcasts. */
    method HandleSubmit(store: Storage)
      modifies this, store
      ensures panNumber == old(panNumber)
      ensures !IsPan(panNumber) ==>
        && error == InvalidPanMessage && creditScore == None
        && store.items == old(store.items) && store.events == old(store.events)
      ensures IsPan(panNumber) ==>
        && error == "" && creditScore == Some(ScoreOf(panNumber))
        && store.items == old(store.items)[HasCheckedKey := "true"][CreditScoreKey := IntToString(ScoreOf(panNumber))]
        && store.events == old(store.events) + 1
    {
      error := "";
      creditScore := None;
      if !IsPan(panNumber) {
        error := InvalidPanMessage;
        return;
      }
      var score := CalculateCreditScore(panNumber);
      creditScore := Some(score);
      store.SetItem(HasCheckedKey, "true");
      store.SetItem(CreditScoreKey, IntToString(score));
      store.Broadcast();
    }

    /** The "Apply for a Loan" link is rendered for a shown score of at least 600. */
    predicate ShowsApplyLink()
      reads this
    {
      creditScore.Some? && creditScore.value >= ApplyLinkThreshold
    }
  }

  /** Typing a PAN in any letter case and submitting it gives the score of
      the upper-case PAN and shows the score. */
  method TypeAndSubmit(page: CreditScorePage, store: Storage, typed: string)
    requires IsPan(ToUpper(typed))
    modifies page, store
    ensures page.creditScore == Some(ScoreOf(typed)) && page.error == ""
  {
    page.HandleChange(typed);
    page.HandleSubmit(store);
    ScoreIgnoresCase(typed);
  }
}
