/** The assistant chat: the ordered keyword router behind the bot's
    answers, the exact-option menu it falls back to, the loan-id lookup in
    the sample loans, the typing delay, the message list and the layout of
    the option buttons. */
module Chatbot {
  import opened JsText

  const BackToMenu := "Back to Main Menu"

  /** The six entries of the main menu. */
  const MainOptions: seq<string> := [
    "Check EMI Status", "Pay EMI", "Loan Application Status",
    "Apply for a New Loan", "Document Assistance", "Contact Support"]

  /** What a reply is about; the reply's wording is left out, except for the
      data a loan lookup fills in. */
  datatype Topic =
    | Opening(username: Option<string>)
    | ProfessionalLoanDocuments | MinimumLoanAmount | InterestRates | LoanEligibility
    | KycDocuments | Prepayment | ApprovalTime | PasswordReset | ContactDetails
    | LoanStatusHelp | PayEmiHelp | EmiStatusHelp | ApplyHelp | UploadHelp
    | DashboardHelp | NewsHelp
    | SampleEmiOverview | ActiveLoans | LoginToPay | InitiatingPayment | RedirectingToPaymentPortal
    | SampleApplications | YourApplications | LoginToApply | RedirectingToApplicationForm
    | DocumentAssistance | RequiredDocuments | LoginToUpload | RedirectingToUpload
    | ConnectingAgent | MainMenu
    | LoanDetails(id: string, status: string, emi: string)
    | LoanNotFound(loanId: string)
    | Greeting | YoureWelcome | NotUnderstood

  datatype Reply = Reply(topic: Topic, options: seq<string>)

  /** One of the sample loans the bot knows. */
  datatype MockLoan = MockLoan(id: string, status: string, emiDue: Option<string>)

  const MockLoans: seq<MockLoan> := [
    MockLoan("LN12345", "Active", Some("₹12,500 due on May 10, 2025")),
    MockLoan("LN67890", "Under Review", None)]

  // ---------------------------------------------------------------- keyword rules

  /** A keyword test on the lower-cased query. */
  datatype Test = Has(word: string) | Both(left: Test, right: Test) | Either(left: Test, right: Test)

  predicate Holds(t: Test, q: string) {
    match t
    case Has(w) => Contains(q, w)
    case Both(l, r) => Holds(l, q) && Holds(r, q)
    case Either(l, r) => Holds(l, q) || Holds(r, q)
  }

  /** A keyword rule: its test and its answer. */
  datatype KeywordRule = KeywordRule(test: Test, reply: Reply)

  /** The keyword rules, one constant each, in the order they are tried. */
  const DocumentsRule := KeywordRule(Both(Has("document"), Has("professional loan")),
    Reply(ProfessionalLoanDocuments, ["Upload Documents", BackToMenu]))
  const MinimumAmountRule := KeywordRule(Either(Has("minimum loan amount"), Has("min loan")),
    Reply(MinimumLoanAmount, ["Apply for a New Loan", BackToMenu]))
  const InterestRateRule := KeywordRule(Has("interest rate"),
    Reply(InterestRates, ["Apply for a New Loan", BackToMenu]))
  const EligibilityRule := KeywordRule(Both(Has("eligibility"), Either(Has("business"), Has("professional"))),
    Reply(LoanEligibility, ["Apply for a New Loan", BackToMenu]))
  const KycRule := KeywordRule(Has("kyc"),
    Reply(KycDocuments, ["Upload Documents", BackToMenu]))
  const PrepaymentRule := KeywordRule(Either(Has("prepay"), Has("prepayment")),
    Reply(Prepayment, ["Contact Support", BackToMenu]))
  const ApprovalTimeRule := KeywordRule(Either(Either(Has("approval time"), Has("how long")), Has("processing time")),
    Reply(ApprovalTime, ["Check Loan Application Status", BackToMenu]))
  const PasswordRule := KeywordRule(Either(Has("reset password"), Has("forgot password")),
    Reply(PasswordReset, ["Go to Login", BackToMenu]))
  const ContactRule := KeywordRule(Both(Has("contact"), Either(Has("support"), Has("customer"))),
    Reply(ContactDetails, ["Start Live Chat", BackToMenu]))
  const LoanStatusRule := KeywordRule(Either(Has("loan status"), Has("application status")),
    Reply(LoanStatusHelp, ["Loan Application Status", BackToMenu]))
  const PayEmiRule := KeywordRule(Both(Has("emi"), Has("pay")),
    Reply(PayEmiHelp, ["Pay EMI", BackToMenu]))
  const EmiStatusRule := KeywordRule(Both(Has("emi"), Either(Has("due"), Has("status"))),
    Reply(EmiStatusHelp, ["Check EMI Status", BackToMenu]))
  const ApplyRule := KeywordRule(Both(Has("apply"), Has("loan")),
    Reply(ApplyHelp, ["Apply for a New Loan", BackToMenu]))
  const UploadRule := KeywordRule(Both(Has("upload"), Has("document")),
    Reply(UploadHelp, ["Upload Documents", BackToMenu]))
  const DashboardRule := KeywordRule(Has("dashboard"),
    Reply(DashboardHelp, ["Go to Dashboard", BackToMenu]))
  const NewsRule := KeywordRule(Either(Has("news"), Has("events")),
    Reply(NewsHelp, ["Go to News & Events", BackToMenu]))

  const Rules: seq<KeywordRule> := [
    DocumentsRule, MinimumAmountRule, InterestRateRule, EligibilityRule,
    KycRule, PrepaymentRule, ApprovalTimeRule, PasswordRule,
    ContactRule, LoanStatusRule, PayEmiRule, EmiStatusRule,
    ApplyRule, UploadRule, DashboardRule, NewsRule]

  /** The first rule from k on whose test holds. */
  function FirstRule(q: string, k: nat): (r: Option<nat>)
    requires k <= |Rules|
    ensures r.Some? ==> k <= r.value < |Rules| && Holds(Rules[r.value].test, q)
    ensures r.Some? ==> forall j :: k <= j < r.value ==> !Holds(Rules[j].test, q)
    ensures r.None? ==> forall j :: k <= j < |Rules| ==> !Holds(Rules[j].test, q)
    decreases |Rules| - k
  {
    if k == |Rules| then None
    else if Holds(Rules[k].test, q) then Some(k)
    else FirstRule(q, k + 1)
  }

  // ---------------------------------------------------------------- routing

  /** The exact menu entries the switch knows, as lower-cased text. */
  datatype MenuEntry =
    | CheckEmiStatus | PayEmi | LoanApplicationStatus | ApplyForNewLoan
    | DocumentAssistanceEntry | ViewRequiredDocuments | UploadDocuments
    | ContactSupport | StartLiveChat | BackToMainMenu | Login

  function MenuEntryOf(q: string): Option<MenuEntry> {
    if q == "check emi status" then Some(CheckEmiStatus)
    else if q == "pay emi" then Some(PayEmi)
    else if q == "loan application status" then Some(LoanApplicationStatus)
    else if q == "apply for a new loan" then Some(ApplyForNewLoan)
    else if q == "document assistance" then Some(DocumentAssistanceEntry)
    else if q == "view required documents" then Some(ViewRequiredDocuments)
    else if q == "upload documents" then Some(UploadDocuments)
    else if q == "contact support" then Some(ContactSupport)
    else if q == "start live chat" then Some(StartLiveChat)
    else if q == "back to main menu" then Some(BackToMainMenu)
    else if q == "login" then Some(Login)
    else None
  }

  /** Which branch of getBotResponse answers the lower-cased query. */
  datatype Route =
    | ByKeyword(k: nat)
    | Menu(entry: MenuEntry)
    | LoanIdLookup(loanId: string)
    | Hello
    | Thanks
    | Fallback

  /** The last space-separated word, upper-cased: `q.split(" ").slice(-1)[0].toUpperCase()`. */
  function LoanIdOf(q: string): string {
    var words := Split(q, ' ');
    ToUpper(words[|words| - 1])
  }

  function RouteOf(q: string): (r: Route)
    ensures r.ByKeyword? ==> r.k < |Rules|
  {
    var rule := FirstRule(q, 0);
    if rule.Some? then ByKeyword(rule.value)
    else if MenuEntryOf(q).Some? then Menu(MenuEntryOf(q).value)
    else if StartsWith(ToLower(q), "loan id") then LoanIdLookup(LoanIdOf(q))
    else if Contains(ToLower(q), "hello") || Contains(ToLower(q), "hi") then Hello
    else if Contains(ToLower(q), "thank") then Thanks
    else Fallback
  }

  /** What the bot does once the typing delay is over: say something, or
      say something and later move to a page (optionally saying one more
      thing first), or just move to a page. */
  datatype BotAction =
    | Say(reply: Reply)
    | SayThenGo(first: Reply, path: string, followUp: Option<Reply>)
    | GoTo(target: string)

  function FindLoan(loans: seq<MockLoan>, id: string): (r: Option<MockLoan>)
    ensures r.Some? ==> r.value in loans && r.value.id == id
    ensures r.None? ==> forall l :: l in loans ==> l.id != id
  {
    if loans == [] then None
    else if loans[0].id == id then Some(loans[0])
    else FindLoan(loans[1..], id)
  }

  /** The switch's answer to a menu entry. Only the Login entry leaves the
      chat at once, and pages behind the login are opened only for a
      logged-in visitor. */
  function MenuAction(e: MenuEntry, isLoggedIn: bool): (a: BotAction)
    ensures a.GoTo? <==> e == Login
    ensures a.GoTo? ==> a.target == "/login"
    ensures a.SayThenGo? ==> isLoggedIn
    ensures isLoggedIn && e in {PayEmi, ApplyForNewLoan, UploadDocuments} ==> a.SayThenGo?
  {
    match e
    case CheckEmiStatus =>
      if !isLoggedIn then Say(Reply(SampleEmiOverview, ["Login", BackToMenu]))
      else Say(Reply(ActiveLoans, [BackToMenu]))
    case PayEmi =>
      if !isLoggedIn then Say(Reply(LoginToPay, ["Login", BackToMenu]))
      else SayThenGo(Reply(InitiatingPayment, []), "/pay-emi", Some(Reply(RedirectingToPaymentPortal, [BackToMenu])))
    case LoanApplicationStatus =>
      if !isLoggedIn then Say(Reply(SampleApplications, ["Login", BackToMenu]))
      else Say(Reply(YourApplications, [BackToMenu]))
    case ApplyForNewLoan =>
      if !isLoggedIn then Say(Reply(LoginToApply, ["Login", BackToMenu]))
      else SayThenGo(Reply(RedirectingToApplicationForm, []), "/apply-loan", None)
    case DocumentAssistanceEntry =>
      Say(Reply(DocumentAssistance, ["View Required Documents", "Upload Documents", BackToMenu]))
    case ViewRequiredDocuments => Say(Reply(RequiredDocuments, ["Upload Documents", BackToMenu]))
    case UploadDocuments =>
      if !isLoggedIn then Say(Reply(LoginToUpload, ["Login", BackToMenu]))
      else SayThenGo(Reply(RedirectingToUpload, []), "/upload-documents", None)
    case ContactSupport => Say(Reply(ContactDetails, ["Start Live Chat", BackToMenu]))
    case StartLiveChat => Say(Reply(ConnectingAgent, [BackToMenu]))
    case BackToMainMenu => Say(Reply(MainMenu, MainOptions))
    case Login => GoTo("/login")
  }

  /** The answer to a loan-id lookup: the loan's details, "No EMI due"
      standing in for a missing due date, or a not-found message. */
  function LookupReply(id: string): (r: Reply)
    ensures r.options == [BackToMenu]
    ensures r.topic.LoanNotFound? <==> forall l :: l in MockLoans ==> l.id != id
    ensures r.topic.LoanDetails? ==> exists l :: l in MockLoans && l.id == id == r.topic.id && l.status == r.topic.status
  {
    var loan := FindLoan(MockLoans, id);
    if loan.Some? then
      Reply(LoanDetails(loan.value.id, loan.value.status, OrElse(loan.value.emiDue, "No EMI due")), [BackToMenu])
    else Reply(LoanNotFound(id), [BackToMenu])
  }

  /** getBotResponse's decision for a query. The bot only ever jumps
      straight to the login page, and it never opens a page behind the
      login: the switch cases that would are caught by keyword rules first. */
  function Respond(query: string, isLoggedIn: bool): (a: BotAction)
    ensures a.GoTo? ==> a.target == "/login"
    ensures !a.SayThenGo?
  {
    var q := ToLower(query);
    match RouteOf(q)
    case ByKeyword(k) => Say(Rules[k].reply)
    case Menu(e) => MenuEntryReached(q); MenuAction(e, isLoggedIn)
    case LoanIdLookup(id) => Say(LookupReply(id))
    case Hello => Say(Reply(Greeting, MainOptions))
    case Thanks => Say(Reply(YoureWelcome, [BackToMenu]))
    case Fallback => Say(Reply(NotUnderstood, MainOptions))
  }

  /** The menu switch is consulted only when no keyword rule matched, and
      then the query is exactly one of its entries. */
  lemma MenuOnlyWithoutKeyword(q: string)
    requires RouteOf(q).Menu?
    ensures forall k :: 0 <= k < |Rules| ==> !Holds(Rules[k].test, q)
    ensures MenuEntryOf(q) == Some(RouteOf(q).entry)
  {
  }

  /** A matching keyword rule with no earlier matching rule decides the answer. */
  lemma FirstMatchWins(query: string, k: nat)
    requires k < |Rules| && Holds(Rules[k].test, ToLower(query))
    requires forall j :: 0 <= j < k ==> !Holds(Rules[j].test, ToLower(query))
    ensures forall loggedIn: bool :: Respond(query, loggedIn) == Say(Rules[k].reply)
  {
    var r := FirstRule(ToLower(query), 0);
    assert r == Some(k);
  }

  // ---------------------------------------------------------------- shadowed menu entries

  // The menu texts a keyword rule fires on, one lemma per text.

  lemma ContactSupportCaught(q: string)
    requires q == "contact support"
    ensures Holds(ContactRule.test, q)
  {
    Occurs(q, "contact", 0);
    Occurs(q, "support", 8);
  }

  lemma LoanApplicationStatusCaught(q: string)
    requires q == "loan application status"
    ensures Holds(LoanStatusRule.test, q)
  {
    assert q[5..23] == "application status";
    Occurs(q, "application status", 5);
  }

  lemma PayEmiCaught(q: string)
    requires q == "pay emi"
    ensures Holds(PayEmiRule.test, q)
  {
    Occurs(q, "emi", 4);
    Occurs(q, "pay", 0);
  }

  lemma CheckEmiStatusCaught(q: string)
    requires q == "check emi status"
    ensures Holds(EmiStatusRule.test, q)
  {
    Occurs(q, "emi", 6);
    Occurs(q, "status", 10);
  }

  lemma ApplyForNewLoanCaught(q: string)
    requires q == "apply for a new loan"
    ensures Holds(ApplyRule.test, q)
  {
    Occurs(q, "apply", 0);
    Occurs(q, "loan", 16);
  }

  lemma UploadDocumentsCaught(q: string)
    requires q == "upload documents"
    ensures Holds(UploadRule.test, q)
  {
    Occurs(q, "upload", 0);
    Occurs(q, "document", 7);
  }

  /** The switch answers only the five entries no keyword rule fires on.
      The pay, apply and upload cases, the only ones that open a page, and
      the status cases with their login checks never run. */
  lemma MenuEntryReached(q: string)
    requires RouteOf(q).Menu?
    ensures RouteOf(q).entry in {DocumentAssistanceEntry, ViewRequiredDocuments, StartLiveChat, BackToMainMenu, Login}
  {
    MenuOnlyWithoutKeyword(q);
    ContactSupportCaught("contact support");
    LoanApplicationStatusCaught("loan application status");
    PayEmiCaught("pay emi");
    CheckEmiStatusCaught("check emi status");
    ApplyForNewLoanCaught("apply for a new loan");
    UploadDocumentsCaught("upload documents");
    assert Rules[8] == ContactRule && Rules[9] == LoanStatusRule && Rules[10] == PayEmiRule;
    assert Rules[11] == EmiStatusRule && Rules[12] == ApplyRule && Rules[13] == UploadRule;
  }

  /** The bot leaves the chat at once exactly for the query "login", in
      any case. */
  lemma JumpsOnlyOnLogin(query: string, isLoggedIn: bool)
    ensures Respond(query, isLoggedIn).GoTo? <==> ToLower(query) == "login"
  {
    var q := ToLower(query);
    if q == "login" {
      NoRuleAnswers(q);
    }
  }

  /** A string with a character the text lacks does not occur in it. */
  lemma Lacks(s: string, sub: string, c: char)
    requires c in sub && c !in s
    ensures !Contains(s, sub)
  {
  }

  lemma Occurs(s: string, sub: string, i: nat)
    requires i + |sub| <= |s| && s[i..i + |sub|] == sub
    ensures Contains(s, sub)
  {
    assert OccursAt(s, sub, i);
  }

  /** A query no rule before the pay-emi rule fires on passes the first ten. */
  lemma FirstTenMiss(q: string)
    requires !Holds(DocumentsRule.test, q) && !Holds(MinimumAmountRule.test, q)
    requires !Holds(InterestRateRule.test, q) && !Holds(EligibilityRule.test, q)
    requires !Holds(KycRule.test, q) && !Holds(PrepaymentRule.test, q)
    requires !Holds(ApprovalTimeRule.test, q) && !Holds(PasswordRule.test, q)
    requires !Holds(ContactRule.test, q) && !Holds(LoanStatusRule.test, q)
    ensures forall j :: 0 <= j < 10 ==> !Holds(Rules[j].test, q)
  {
  }

  /** A query no rule fires on is passed on to the menu switch. */
  lemma {:induction false} AllMiss(q: string)
    requires forall j :: 0 <= j < 10 ==> !Holds(Rules[j].test, q)
    requires !Holds(PayEmiRule.test, q) && !Holds(EmiStatusRule.test, q)
    requires !Holds(ApplyRule.test, q) && !Holds(UploadRule.test, q)
    requires !Holds(DashboardRule.test, q) && !Holds(NewsRule.test, q)
    ensures FirstRule(q, 0) == None
  {
    assert forall j :: 0 <= j < |Rules| ==> !Holds(Rules[j].test, q);
  }

  // A rule cannot fire on a query that lacks a letter of every phrase it
  // needs: one lemma per rule, for the letters the queries below lack.

  lemma MissesDocuments(q: string)
    requires 'o' !in q || 'm' !in q
    ensures !Holds(DocumentsRule.test, q)
  {
    if 'o' !in q {
      Lacks(q, "document", 'o');
    } else {
      Lacks(q, "document", 'm');
    }
  }

  lemma MissesMinimumAmount(q: string)
    requires 'o' !in q || 'm' !in q
    ensures !Holds(MinimumAmountRule.test, q)
  {
    if 'o' !in q {
      Lacks(q, "minimum loan amount", 'o');
      Lacks(q, "min loan", 'o');
    } else {
      Lacks(q, "minimum loan amount", 'm');
      Lacks(q, "min loan", 'm');
    }
  }

  lemma MissesInterestRate(q: string)
    requires 't' !in q || 'r' !in q
    ensures !Holds(InterestRateRule.test, q)
  {
    if 't' !in q {
      Lacks(q, "interest rate", 't');
    } else {
      Lacks(q, "interest rate", 'r');
    }
  }

  lemma MissesEligibility(q: string)
    requires 't' !in q || 'l' !in q
    ensures !Holds(EligibilityRule.test, q)
  {
    if 't' !in q {
      Lacks(q, "eligibility", 't');
    } else {
      Lacks(q, "eligibility", 'l');
    }
  }

  lemma MissesKyc(q: string)
    requires 'k' !in q || 'y' !in q
    ensures !Holds(KycRule.test, q)
  {
    if 'k' !in q {
      Lacks(q, "kyc", 'k');
    } else {
      Lacks(q, "kyc", 'y');
    }
  }

  lemma MissesPrepayment(q: string)
    requires 'r' !in q || 'p' !in q
    ensures !Holds(PrepaymentRule.test, q)
  {
    if 'r' !in q {
      Lacks(q, "prepay", 'r');
      Lacks(q, "prepayment", 'r');
    } else {
      Lacks(q, "prepay", 'p');
      Lacks(q, "prepayment", 'p');
    }
  }

  lemma MissesApprovalTime(q: string)
    requires 'o' !in q || ('p' !in q && 'h' !in q)
    ensures !Holds(ApprovalTimeRule.test, q)
  {
    if 'o' !in q {
      Lacks(q, "approval time", 'o');
      Lacks(q, "how long", 'o');
      Lacks(q, "processing time", 'o');
    } else {
      ApprovalTimeNeedsPH(q);
    }
    assert !Holds(Either(Has("approval time"), Has("how long")), q);
  }

  lemma ApprovalTimeNeedsPH(q: string)
    requires 'p' !in q && 'h' !in q
    ensures !Contains(q, "approval time") && !Contains(q, "how long") && !Contains(q, "processing time")
  {
    Lacks(q, "approval time", 'p');
    Lacks(q, "how long", 'h');
    Lacks(q, "processing time", 'p');
  }

  lemma MissesPassword(q: string)
    requires 'o' !in q || 'p' !in q
    ensures !Holds(PasswordRule.test, q)
  {
    if 'o' !in q {
      Lacks(q, "reset password", 'o');
      Lacks(q, "forgot password", 'o');
    } else {
      Lacks(q, "reset password", 'p');
      Lacks(q, "forgot password", 'p');
    }
  }

  lemma MissesContact(q: string)
    requires 'o' !in q || 't' !in q
    ensures !Holds(ContactRule.test, q)
  {
    if 'o' !in q {
      Lacks(q, "contact", 'o');
    } else {
      Lacks(q, "contact", 't');
    }
  }

  lemma MissesLoanStatus(q: string)
    requires 'o' !in q || 't' !in q
    ensures !Holds(LoanStatusRule.test, q)
  {
    if 'o' !in q {
      Lacks(q, "loan status", 'o');
      Lacks(q, "application status", 'o');
    } else {
      Lacks(q, "loan status", 't');
      Lacks(q, "application status", 't');
    }
  }

  lemma MissesPayEmi(q: string)
    requires 'p' !in q || 'm' !in q
    ensures !Holds(PayEmiRule.test, q)
  {
    if 'p' !in q {
      Lacks(q, "pay", 'p');
    } else {
      Lacks(q, "emi", 'm');
    }
  }

  lemma MissesEmiStatus(q: string)
    requires 'm' !in q
    ensures !Holds(EmiStatusRule.test, q)
  {
    Lacks(q, "emi", 'm');
  }

  lemma MissesApply(q: string)
    requires 'p' !in q
    ensures !Holds(ApplyRule.test, q)
  {
    Lacks(q, "apply", 'p');
  }

  lemma MissesUpload(q: string)
    requires 'p' !in q
    ensures !Holds(UploadRule.test, q)
  {
    Lacks(q, "upload", 'p');
  }

  lemma MissesDashboard(q: string)
    requires 'h' !in q
    ensures !Holds(DashboardRule.test, q)
  {
    Lacks(q, "dashboard", 'h');
  }

  lemma MissesNews(q: string)
    requires 'w' !in q && 't' !in q
    ensures !Holds(NewsRule.test, q)
  {
    Lacks(q, "news", 'w');
    Lacks(q, "events", 't');
  }

  predicate PayEmiQuery(q: string) {
    'o' !in q && 'r' !in q && 't' !in q && 'k' !in q && Contains(q, "emi") && Contains(q, "pay")
  }

  predicate EmiStatusQuery(q: string) {
    'o' !in q && 'r' !in q && 'l' !in q && 'y' !in q && 'p' !in q
    && Contains(q, "emi") && Contains(q, "status")
  }

  /** Any query with "emi" and "pay" in it and no 'o', 'r', 't' or 'k' is
      answered by the pay-emi rule, whether or not the visitor is logged in. */
  lemma PayEmiRuleAnswers(query: string, isLoggedIn: bool)
    requires PayEmiQuery(ToLower(query))
    ensures Respond(query, isLoggedIn) == Say(Reply(PayEmiHelp, ["Pay EMI", BackToMenu]))
  {
    var q := ToLower(query);
    MissesDocuments(q);
    MissesMinimumAmount(q);
    MissesInterestRate(q);
    MissesEligibility(q);
    MissesKyc(q);
    MissesPrepayment(q);
    MissesApprovalTime(q);
    MissesPassword(q);
    MissesContact(q);
    MissesLoanStatus(q);
    FirstTenMiss(q);
    FirstMatchWins(query, 10);
  }

  /** Any query with "emi" and "status" in it and no 'o', 'r', 'l', 'y' or
      'p' is answered by the EMI-status rule. */
  lemma EmiStatusRuleAnswers(query: string, isLoggedIn: bool)
    requires EmiStatusQuery(ToLower(query))
    ensures Respond(query, isLoggedIn) == Say(Reply(EmiStatusHelp, ["Check EMI Status", BackToMenu]))
  {
    var q := ToLower(query);
    MissesDocuments(q);
    MissesMinimumAmount(q);
    MissesInterestRate(q);
    MissesEligibility(q);
    MissesKyc(q);
    MissesPrepayment(q);
    MissesApprovalTime(q);
    MissesPassword(q);
    MissesContact(q);
    MissesLoanStatus(q);
    FirstTenMiss(q);
    MissesPayEmi(q);
    FirstMatchWins(query, 11);
  }

  /** Any query with none of 'm', 't', 'p', 'k', 'h' and 'w' passes every
      keyword rule by. */
  lemma NoRuleAnswers(q: string)
    requires 'm' !in q && 't' !in q && 'p' !in q && 'k' !in q && 'h' !in q && 'w' !in q
    ensures FirstRule(q, 0) == None
  {
    MissesDocuments(q);
    MissesMinimumAmount(q);
    MissesInterestRate(q);
    MissesEligibility(q);
    MissesKyc(q);
    MissesPrepayment(q);
    MissesApprovalTime(q);
    MissesPassword(q);
    MissesContact(q);
    MissesLoanStatus(q);
    FirstTenMiss(q);
    MissesPayEmi(q);
    MissesEmiStatus(q);
    MissesApply(q);
    MissesUpload(q);
    MissesDashboard(q);
    MissesNews(q);
    AllMiss(q);
  }

  lemma PayEmiText()
    ensures PayEmiQuery(ToLower("Pay EMI"))
  {
    PayEmiLower();
    PayEmiWords("pay emi");
  }

  lemma PayEmiLower()
    ensures ToLower("Pay EMI") == "pay emi"
  {
  }

  lemma PayEmiWords(q: string)
    requires q == "pay emi"
    ensures PayEmiQuery(q)
  {
    Occurs(q, "emi", 4);
    Occurs(q, "pay", 0);
  }

  /** The "Pay EMI" button is answered by the keyword rule that asks for
      "emi" and "pay": the switch's own pay-emi case, with its login check
      and redirect, is never reached. */
  lemma PayEmiShadowed(isLoggedIn: bool)
    ensures Respond("Pay EMI", isLoggedIn) == Say(Reply(PayEmiHelp, ["Pay EMI", BackToMenu]))
  {
    PayEmiText();
    PayEmiRuleAnswers("Pay EMI", isLoggedIn);
  }

  lemma CheckEmiStatusText()
    ensures EmiStatusQuery(ToLower("Check EMI Status"))
  {
    CheckEmiStatusLower();
    CheckEmiStatusWords("check emi status");
  }

  lemma CheckEmiStatusLower()
    ensures ToLower("Check EMI Status") == "check emi status"
  {
  }

  lemma CheckEmiStatusWords(q: string)
    requires q == "check emi status"
    ensures EmiStatusQuery(q)
  {
    Occurs(q, "emi", 6);
    Occurs(q, "status", 10);
  }

  /** Likewise "Check EMI Status" is answered by the EMI-status rule, so
      the switch's sample overview for visitors who are not logged in is
      never shown. */
  lemma CheckEmiStatusShadowed(isLoggedIn: bool)
    ensures Respond("Check EMI Status", isLoggedIn) == Say(Reply(EmiStatusHelp, ["Check EMI Status", BackToMenu]))
  {
    CheckEmiStatusText();
    EmiStatusRuleAnswers("Check EMI Status", isLoggedIn);
  }

  /** A query that starts with "loan id", is no menu entry and has none of
      'm', 't', 'p', 'k', 'h' and 'w' is answered by the loan lookup for its
      last word. */
  lemma LoanIdLookupAnswers(query: string, isLoggedIn: bool)
    requires var q := ToLower(query);
      'm' !in q && 't' !in q && 'p' !in q && 'k' !in q && 'h' !in q && 'w' !in q
    requires MenuEntryOf(ToLower(query)).None? && StartsWith(ToLower(query), "loan id")
    ensures Respond(query, isLoggedIn) == Say(LookupReply(LoanIdOf(ToLower(query))))
  {
    NoRuleAnswers(ToLower(query));
    ToLowerIdempotent(ToLower(query));
  }

  /** A query with none of 'm', 't', 'p', 'k', 'h' and 'w' that is no menu
      entry and does not start with "loan id" gets the "didn't get that"
      reply with the main menu. */
  lemma FallbackAnswers(query: string, isLoggedIn: bool)
    requires var q := ToLower(query);
      'm' !in q && 't' !in q && 'p' !in q && 'k' !in q && 'h' !in q && 'w' !in q
    requires MenuEntryOf(ToLower(query)).None? && !StartsWith(ToLower(query), "loan id")
    ensures Respond(query, isLoggedIn) == Say(Reply(NotUnderstood, MainOptions))
  {
    var q := ToLower(query);
    NoRuleAnswers(q);
    ToLowerIdempotent(q);
    Lacks(q, "hello", 'h');
    Lacks(q, "hi", 'h');
    Lacks(q, "thank", 'h');
  }

  lemma LoanIdText()
    ensures ToLower("loan id ln12345") == "loan id ln12345"
    ensures StartsWith("loan id ln12345", "loan id")
  {
    assert "loan id ln12345"[..7] == "loan id";
  }

  /** The id is the upper-cased text after the last space. */
  lemma LoanIdAfterLastSpace(q: string, i: nat)
    requires i < |q| && q[i] == ' ' && ' ' !in q[i + 1..]
    ensures LoanIdOf(q) == ToUpper(q[i + 1..])
  {
    SplitLast(q, ' ', i);
  }

  lemma LoanIdWord()
    ensures LoanIdOf("loan id ln12345") == "LN12345"
  {
    var q := "loan id ln12345";
    assert q[7] == ' ' && q[8..] == "ln12345";
    LoanIdAfterLastSpace(q, 7);
    UpperId(q[8..]);
  }

  lemma UpperId(s: string)
    requires s == "ln12345"
    ensures ToUpper(s) == "LN12345"
  {
    var r := ToUpper(s);
    assert forall i :: 0 <= i < 7 ==> r[i] == "LN12345"[i];
  }

  lemma LoanIdLetters()
    ensures var q := "loan id ln12345";
      'm' !in q && 't' !in q && 'p' !in q && 'k' !in q && 'h' !in q && 'w' !in q
    ensures MenuEntryOf("loan id ln12345").None?
  {
    assert "loan id ln12345"[1] == 'o';
  }

  /** "Loan ID ln12345" reaches the lookup and finds the active sample loan. */
  lemma LoanIdFound(isLoggedIn: bool)
    ensures Respond("loan id ln12345", isLoggedIn)
      == Say(Reply(LoanDetails("LN12345", "Active", "₹12,500 due on May 10, 2025"), [BackToMenu]))
  {
    LoanIdText();
    LoanIdWord();
    LoanIdLetters();
    LoanIdLookupAnswers("loan id ln12345", isLoggedIn);
  }

  // ---------------------------------------------------------------- delay and layout

  /** `Math.min(1000 + query.length * 10, 2000)` milliseconds. */
  function ResponseDelay(query: string): (ms: int)
    ensures 1000 <= ms <= 2000
    ensures ms == 2000 <==> |query| >= 100
  {
    if 1000 + |query| * 10 < 2000 then 1000 + |query| * 10 else 2000
  }

  /** A longer query never gets a shorter delay. */
  lemma DelayMonotone(a: string, b: string)
    requires |a| <= |b|
    ensures ResponseDelay(a) <= ResponseDelay(b)
  {
  }

  datatype Device = Mobile | Tablet | Desktop

  /** The grid props of the option buttons: none, or a column width. */
  datatype GridProps = NoProps | Xs(columns: int)

  /** getOptionGridProps */
  function OptionGridProps(options: Option<seq<string>>, device: Device): (g: GridProps)
    ensures g == NoProps <==> options.None? || options.value == []
    ensures g == Xs(12) <==>
      options.Some? && |options.value| > 2 && device == Mobile
      && exists i :: 0 <= i < |options.value| && |options.value[i]| > 15
    ensures g == NoProps || g == Xs(6) || g == Xs(12)
  {
    if options.None? || |options.value| == 0 then NoProps
    else if |options.value| <= 2 || !(exists i :: 0 <= i < |options.value| && |options.value[i]| > 15) then Xs(6)
    else if device == Mobile then Xs(12)
    else Xs(6)
  }

  /** The main menu takes the full width on a phone and half elsewhere. */
  lemma MainMenuLayout()
    ensures OptionGridProps(Some(MainOptions), Mobile) == Xs(12)
    ensures OptionGridProps(Some(MainOptions), Tablet) == Xs(6)
  {
    assert |MainOptions[2]| > 15;
  }

  // ---------------------------------------------------------------- the message list

  datatype Message = UserMessage(text: string) | BotMessage(reply: Reply)

  class ChatWindow {
    var messages: seq<Message>
    var input: string
    var isTyping: bool

    /** The opening message greets the user by name when one is given. */
    constructor (username: Option<string>)
      ensures messages == [BotMessage(Reply(Opening(if Truthy(username) then username else None), MainOptions))]
      ensures input == "" && !isTyping
    {
      messages := [BotMessage(Reply(Opening(if Truthy(username) then username else None), MainOptions))];
      input := "";
      isTyping := false;
    }

    /** The input field's onChange. */
    method SetInput(text: string)
      modifies this
      ensures input == text && messages == old(messages) && isTyping == old(isTyping)
    {
      input := text;
    }

    /** handleSend: blank input is ignored; otherwise exactly one user
        message is added, the field is cleared and the typed text is the
        query the bot will answer. */
    method HandleSend() returns (query: Option<string>)
      modifies this
      ensures AllSpace(old(input)) ==> query == None && messages == old(messages) && input == old(input)
      ensures AllSpace(old(input)) ==> isTyping == old(isTyping)
      ensures !AllSpace(old(input)) ==> query == Some(old(input)) && input == "" && isTyping
      ensures !AllSpace(old(input)) ==> messages == old(messages) + [UserMessage(old(input))]
    {
      TrimEmpty(input);
      if Trim(input) == "" {
        return None;
      }
      messages := messages + [UserMessage(input)];
      query := Some(input);
      input := "";
      isTyping := true;
    }

    /** handleOptionClick: the chosen entry is shown as the user's message
        and becomes the query. */
    method HandleOptionClick(option: string) returns (query: string)
      modifies this
      ensures messages == old(messages) + [UserMessage(option)] && isTyping
      ensures query == option && input == old(input)
    {
      messages := messages + [UserMessage(option)];
      isTyping := true;
      query := option;
    }

    /** The answer arriving after the delay: typing stops, the bot's reply
        (if any) is appended and the action is handed back. The source also
        handles an answer that opens a page later; `Respond` never gives one. */
    method DeliverResponse(query: string, isLoggedIn: bool) returns (action: BotAction)
      modifies this
      ensures action == Respond(query, isLoggedIn) && !isTyping && input == old(input)
      ensures action.Say? ==> messages == old(messages) + [BotMessage(action.reply)]
      ensures !action.SayThenGo?
      ensures action.GoTo? ==> messages == old(messages)
    {
      isTyping := false;
      action := Respond(query, isLoggedIn);
      match action
      case Say(r) => messages := messages + [BotMessage(r)];
      case SayThenGo(_, _, _) => assert false;
      case GoTo(_) =>
    }

    /** The delayed second half of a redirecting answer: the follow-up
        message, if any, is appended and the page to open is returned. */
    method CompleteRedirect(action: BotAction) returns (path: string)
      requires action.SayThenGo?
      modifies this
      ensures path == action.path && input == old(input) && isTyping == old(isTyping)
      ensures messages == old(messages) + (if action.followUp.Some? then [BotMessage(action.followUp.value)] else [])
    {
      if action.followUp.Some? {
        messages := messages + [BotMessage(action.followUp.value)];
      }
      path := action.path;
    }
  }

  /** Sending a typed question and receiving the answer adds the question
      and then the answer the router picks. */
  method AskTyped(chat: ChatWindow, text: string, isLoggedIn: bool)
    requires !AllSpace(text)
    modifies chat
    ensures Respond(text, isLoggedIn).Say? ==>
      chat.messages == old(chat.messages) + [UserMessage(text), BotMessage(Respond(text, isLoggedIn).reply)]
    ensures chat.input == "" && !chat.isTyping
  {
    chat.SetInput(text);
    var query := chat.HandleSend();
    var _ := chat.DeliverResponse(query.value, isLoggedIn);
  }
}
