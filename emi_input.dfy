/** The normalisers behind the card and UPI fields of the EMI payment
    dialog: the digit-only PIN and CVV filters, the MM/YY expiry field and
    the card-number grouping. */
module EmiInput {
  import opened JsText

  const PinLength: nat := 4
  const CvvLength: nat := 3
  /** The card-number pattern takes runs of 4 to 16 digits. */
  const MinCardDigits: nat := 4
  const MaxCardDigits: nat := 16
  const GroupSize: nat := 4

  predicate AllDigits(s: string) {
    forall i :: 0 <= i < |s| ==> IsDigit(s[i])
  }

  /** The PIN and CVV onChange: the digits of the typed text replace the
      field when there are at most `limit` of them; otherwise the field
      keeps its value. */
  function LimitedDigits(current: string, typed: string, limit: nat): (r: string)
    ensures |DigitsOnly(typed)| <= limit ==> r == DigitsOnly(typed)
    ensures |DigitsOnly(typed)| > limit ==> r == current
  {
    var v := DigitsOnly(typed);
    if |v| <= limit then v else current
  }

  /** A field holding only digits, at most `limit` of them, stays that way
      whatever is typed. */
  lemma LimitedDigitsKeepsShape(current: string, typed: string, limit: nat)
    requires AllDigits(current) && |current| <= limit
    ensures AllDigits(LimitedDigits(current, typed, limit))
    ensures |LimitedDigits(current, typed, limit)| <= limit
  {
  }

  /** Text that already is a short enough run of digits is taken as it is,
      and nothing else is: the filter accepts typed text unchanged exactly
      when it is all digits and within the limit. */
  lemma LimitedDigitsAcceptsIff(current: string, typed: string, limit: nat)
    requires AllDigits(current) && |current| <= limit
    ensures LimitedDigits(current, typed, limit) == typed <==>
      (AllDigits(typed) && |typed| <= limit) || typed == current
  {
    if AllDigits(typed) {
      DigitsOnlyOfDigits(typed);
    }
    if LimitedDigits(current, typed, limit) == typed {
      assert AllDigits(typed);
    }
  }

  /** The UPI PIN field: at most four digits. */
  function PinInput(current: string, typed: string): string {
    LimitedDigits(current, typed, PinLength)
  }

  /** The CVV field: at most three digits. */
  function CvvInput(current: string, typed: string): string {
    LimitedDigits(current, typed, CvvLength)
  }

  function Min(a: int, b: int): int { if a < b then a else b }

  /** The expiry onChange: the digits of the typed text, with a '/' after
      the first two once there are more than two, and only the next two
      digits kept after it. */
  function ExpiryInput(typed: string): (r: string)
    ensures |r| <= 5
    ensures DigitsOnly(r) == DigitsOnly(typed)[..Min(4, |DigitsOnly(typed)|)]
    ensures |DigitsOnly(typed)| > 2 <==> '/' in r
    ensures '/' in r ==> r[2] == '/'
  {
    var v := DigitsOnly(typed);
    if |v| > 2 then
      var r := v[..2] + "/" + v[2..Min(4, |v|)];
      DigitsOnlyOfDigits(v[..2]);
      DigitsOnlyOfDigits(v[2..Min(4, |v|)]);
      DigitsOnlyAppend(v[..2] + "/", v[2..Min(4, |v|)]);
      DigitsOnlyAppend(v[..2], "/");
      assert v[..Min(4, |v|)] == v[..2] + v[2..Min(4, |v|)];
      assert r[2] == '/';
      r
    else
      DigitsOnlyOfDigits(v);
      assert forall i :: 0 <= i < |v| ==> v[i] != '/';
      v
  }

  /** The field shows what the filter produced and passes it back on the
      next change: feeding the shown text in again changes nothing. */
  lemma ExpiryInputStable(typed: string)
    ensures ExpiryInput(ExpiryInput(typed)) == ExpiryInput(typed)
  {
    var v := DigitsOnly(typed);
    var w := DigitsOnly(ExpiryInput(typed));
    assert w == v[..Min(4, |v|)];
  }

  /** The pieces `parts` receives: consecutive groups of four, the last one
      possibly shorter. */
  function Chunks(m: string): (r: seq<string>)
    requires m != ""
    ensures |r| >= 1
    decreases |m|
  {
    if |m| <= GroupSize then [m] else [m[..GroupSize]] + Chunks(m[GroupSize..])
  }

  /** `parts.join(" ")` */
  function Join(parts: seq<string>): string {
    if parts == [] then ""
    else if |parts| == 1 then parts[0]
    else parts[0] + " " + Join(parts[1..])
  }

  /** The digits the card-number pattern picks up: the first run of 4 to 16
      digits of the text once everything but digits is dropped, or nothing
      when fewer than four digits were typed. */
  function CardDigits(value: string): (m: string)
    ensures m == "" || MinCardDigits <= |m| <= MaxCardDigits
    ensures AllDigits(m)
  {
    var v := DigitsOnly(value);
    if |v| < MinCardDigits then "" else v[..Min(MaxCardDigits, |v|)]
  }

  /** What formatCardNumber returns: the grouped digits, or the typed text
      unchanged when the pattern found nothing. */
  function FormattedCardNumber(value: string): string {
    var m := CardDigits(value);
    if m == "" then value else Join(Chunks(m))
  }

  /** The tail of the chunks from a multiple of four on. */
  lemma ChunksFrom(m: string, i: nat)
    requires i < |m| && m != ""
    ensures Chunks(m[i..]) == [m[i..Min(i + GroupSize, |m|)]] +
      (if i + GroupSize < |m| then Chunks(m[i + GroupSize..]) else [])
  {
    if i + GroupSize < |m| {
      assert m[i..][GroupSize..] == m[i + GroupSize..];
      assert m[i..][..GroupSize] == m[i..i + GroupSize];
    } else {
      assert m[i..] == m[i..|m|];
    }
  }

  /** formatCardNumber: strips everything but digits, takes the first run
      of the card pattern and pushes its groups of four into `parts`. */
  method FormatCardNumber(value: string) returns (r: string)
    ensures r == FormattedCardNumber(value)
  {
    var v := DigitsOnly(value);
    var m := if |v| < MinCardDigits then "" else v[..Min(MaxCardDigits, |v|)];
    var parts: seq<string> := [];
    var i := 0;
    while i < |m|
      invariant 0 <= i && i % GroupSize == 0
      invariant i < |m| ==> parts + Chunks(m[i..]) == Chunks(m)
      invariant i >= |m| ==> parts == (if m == "" then [] else Chunks(m))
      decreases |m| - i
    {
      ChunksFrom(m, i);
      var piece := m[i..Min(i + GroupSize, |m|)];
      parts := parts + [piece];
      i := i + GroupSize;
    }
    r := if |parts| > 0 then Join(parts) else value;
  }

  /** Removing the spaces from grouped digits gives the digits back; one
      space goes in per complete group of four before the last group. */
  lemma {:induction false} JoinChunksDigits(m: string)
    requires m != "" && AllDigits(m)
    ensures DigitsOnly(Join(Chunks(m))) == m
    ensures |Join(Chunks(m))| == |m| + (|m| - 1) / GroupSize
    decreases |m|
  {
    if |m| <= GroupSize {
      DigitsOnlyOfDigits(m);
    } else {
      var rest := m[GroupSize..];
      JoinChunksDigits(rest);
      assert Chunks(m)[1..] == Chunks(rest);
      assert Join(Chunks(m)) == m[..GroupSize] + " " + Join(Chunks(rest));
      DigitsOnlyAppend(m[..GroupSize] + " ", Join(Chunks(rest)));
      DigitsOnlyAppend(m[..GroupSize], " ");
      DigitsOnlyOfDigits(m[..GroupSize]);
      assert m == m[..GroupSize] + rest;
    }
  }

  /** Once four digits are typed the field holds at most 19 characters,
      the digits it shows are the picked-up run, and formatting the shown
      text again changes nothing. */
  lemma FormattedCardNumberProperties(value: string)
    requires |DigitsOnly(value)| >= MinCardDigits
    ensures var r := FormattedCardNumber(value);
      && DigitsOnly(r) == CardDigits(value)
      && |r| <= MaxCardDigits + 3
      && FormattedCardNumber(r) == r
  {
    var m := CardDigits(value);
    var r := FormattedCardNumber(value);
    JoinChunksDigits(m);
    assert CardDigits(r) == m;
  }

  /** Fewer than four digits leave the text exactly as typed, letters and
      all. */
  lemma ShortCardNumberUnchanged(value: string)
    requires |DigitsOnly(value)| < MinCardDigits
    ensures FormattedCardNumber(value) == value
  {
  }
}
