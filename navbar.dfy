/** The navigation bar: who counts as logged in, which entries it offers,
    the avatar initials, the apply-loan gate and logout. */
module Navbar {
  import opened JsText
  import opened BrowserStorage
  import opened Eligibility

  /** The stored user object after JSON parsing; a missing field is None. */
  datatype User = User(id: Option<int>, name: Option<string>, role: Option<string>, email: Option<string>)

  /** `JSON.parse(localStorage.getItem("user") || "{}")` when nothing is stored. */
  const EmptyUser := User(None, None, None, None)

  /** checkAuth: `user.id != null && user.role`. */
  predicate IsAuthenticated(user: User) {
    user.id.Some? && Truthy(user.role)
  }

  datatype NavItem = NavItem(title: string, path: string)

  const HomeItem := NavItem("Home", "/")
  const CreditScoreItem := NavItem("Credit Score", "/credit-score")
  const ApplyLoanItem := NavItem("Apply Loan", "/apply-loan")

  function DashboardPath(user: User): string {
    if user.role == Some("ADMIN") then "/admin-dashboard" else "/dashboard"
  }

  /** getNavItems: Home first; Dashboard and Credit Score for a logged-in
      user; Apply Loan only for the USER role. */
  method GetNavItems(isAuthenticated: bool, user: User) returns (items: seq<NavItem>)
    ensures |items| >= 1 && items[0] == HomeItem
    ensures !isAuthenticated ==> items == [HomeItem]
    ensures isAuthenticated ==>
      |items| >= 3 && items[1] == NavItem("Dashboard", DashboardPath(user)) && items[2] == CreditScoreItem
    ensures ApplyLoanItem in items <==> isAuthenticated && user.role == Some("USER")
    ensures |items| == if !isAuthenticated then 1 else if user.role == Some("USER") then 4 else 3
  {
    items := [HomeItem];
    if isAuthenticated {
      items := items + [NavItem("Dashboard", DashboardPath(user)), CreditScoreItem];
      if user.role == Some("USER") {
        items := items + [ApplyLoanItem];
      }
    }
  }

  /** The initial of every word: the non-space characters that start the
      text or follow a space. */
  function WordStarts(s: string, afterSpace: bool): string {
    if s == [] then []
    else (if s[0] != ' ' && afterSpace then [s[0]] else []) + WordStarts(s[1..], s[0] == ' ')
  }

  /** `words.map(n => n[0]).join("")`: an empty word contributes nothing. */
  function FirstChars(words: seq<string>): string {
    if words == [] then []
    else (if words[0] == [] then [] else [words[0][0]]) + FirstChars(words[1..])
  }

  lemma {:induction false} WordStartsNoSpace(s: string)
    requires ' ' !in s
    ensures WordStarts(s, false) == []
  {
    if s != [] {
      WordStartsNoSpace(s[1..]);
    }
  }

  lemma {:induction false} WordStartsUpToSpace(s: string, i: nat, p: bool)
    requires i < |s| && s[i] == ' ' && ' ' !in s[..i]
    ensures WordStarts(s, p) == (if i > 0 && p then [s[0]] else []) + WordStarts(s[i + 1..], true)
  {
    if i > 0 {
      assert s[0] == s[..i][0];
      assert s[1..][..i - 1] == s[..i][1..];
      assert ' ' !in s[1..][..i - 1];
      WordStartsUpToSpace(s[1..], i - 1, false);
      assert s[1..][i..] == s[i + 1..];
    }
  }

  /** Splitting on spaces and taking the first letter of each piece picks
      exactly the word starts. */
  lemma {:induction false} SplitFirstChars(s: string)
    ensures FirstChars(Split(s, ' ')) == WordStarts(s, true)
    decreases |s|
  {
    if ' ' !in s {
      assert Split(s, ' ') == [s];
      assert FirstChars([s]) == (if s == [] then [] else [s[0]]) + FirstChars([]);
      if s != [] {
        WordStartsNoSpace(s[1..]);
      }
    } else {
      var i := IndexOf(s, ' ');
      var ws := Split(s[i + 1..], ' ');
      assert Split(s, ' ') == [s[..i]] + ws;
      assert ([s[..i]] + ws)[1..] == ws;
      SplitFirstChars(s[i + 1..]);
      WordStartsUpToSpace(s, i, true);
      if i > 0 { assert s[..i][0] == s[0]; }
    }
  }

  /** getUserInitials: "U" without a user or a name, otherwise the
      upper-cased first letters of the space-separated words. */
  function UserInitials(user: Option<User>): (r: string)
    ensures user.None? || !Truthy(user.value.name) ==> r == "U"
    ensures user.Some? && Truthy(user.value.name) ==> r == ToUpper(WordStarts(user.value.name.value, true))
  {
    if user.None? || !Truthy(user.value.name) then "U"
    else
      var name := user.value.name.value;
      SplitFirstChars(name);
      ToUpper(FirstChars(Split(name, " "[0])))
  }

  datatype Click = Blocked(redirect: string, toast: string) | Follow(path: string)

  /** handleApplyLoanClick: unchecked or low-score users are sent to the
      credit-check page with a message; others go to the requested path. */
  function ApplyLoanClick(f: CreditFlags, path: string): (c: Click)
    ensures c.Follow? <==> Gate(f) == Allowed
    ensures c.Follow? ==> c.path == path
    ensures c.Blocked? ==> c.redirect == CreditScorePath
    ensures c == Blocked(CreditScorePath, NotCheckedMessage) <==> !f.hasChecked
  {
    match Gate(f)
    case NotChecked => Blocked(CreditScorePath, NotCheckedMessage)
    case ScoreTooLow => Blocked(CreditScorePath, LowScoreMessage)
    case Allowed => Follow(path)
  }

  /** The Apply Loan tooltip. */
  function ApplyLoanTooltip(f: CreditFlags): (t: string)
    ensures t == "Apply for a loan" <==> !ApplyDisabled(f)
  {
    if !f.hasChecked then "Please check your credit score first"
    else if ComparedScore(f.score) <= GateThreshold then "Your credit score is too low to apply for a loan"
    else "Apply for a loan"
  }

  /** The navigation bar's own copy of the session flags. */
  class NavbarView {
    var isAuthenticated: bool
    var flags: CreditFlags

    constructor ()
      ensures !isAuthenticated && flags == CreditFlags(false, None)
    {
      isAuthenticated := false;
      flags := CreditFlags(false, None);
    }

    /** checkAuth, given the parsed stored user. */
    method CheckAuth(user: User)
      modifies this
      ensures isAuthenticated == IsAuthenticated(user) && flags == old(flags)
    {
      isAuthenticated := user.id.Some? && Truthy(user.role);
    }

    /** checkCreditScoreStatus */
    method CheckCreditScoreStatus(store: Storage)
      modifies this
      ensures flags == ReadCreditFlags(store.items) && isAuthenticated == old(isAuthenticated)
    {
      var checked := store.GetItem(HasCheckedKey) == Some("true");
      var stored := store.GetItem(CreditScoreKey);
      var parsed := if stored.Some? then ParseInt(stored.value) else None;
      flags := CreditFlags(checked, if parsed.Some? && parsed.value != 0 then parsed else None);
    }
  }

  /** handleLogout: removes the user and both credit flags, broadcasts the
      change and returns the page to go to. */
  method HandleLogout(store: Storage) returns (path: string)
    modifies store
    ensures store.items == old(store.items) - {UserKey, HasCheckedKey, CreditScoreKey}
    ensures store.events == old(store.events) + 1
    ensures path == "/"
  {
    store.RemoveItem(UserKey);
    store.RemoveItem(HasCheckedKey);
    store.RemoveItem(CreditScoreKey);
    store.Broadcast();
    path := "/";
  }

  /** After logout, a re-read of storage shows no credit check, so the gate refuses. */
  method LogoutClosesGate(store: Storage, view: NavbarView)
    modifies store, view
    ensures Gate(view.flags) == NotChecked
  {
    var _ := HandleLogout(store);
    view.CheckCreditScoreStatus(store);
    ClearedStorageNotChecked(old(store.items));
  }
}
