/**
 * The four-step signup wizard of the web front end (apps/web/app/page.tsx):
 * the profile, the "authenticated" flag, how many cards the user holds, which
 * banks issued them, the merchant being paid today, and the error/result slots.
 * The step on screen is never stored; it is recomputed from the state.
 */
module Wizard {
  import opened Wrappers
  import opened Text

  datatype Bank = CIBC | RBC | Scotiabank | TD | BMO

  datatype Merchant =
    | Walmart | FreshCo | NoFrills | Loblaws | Costco
    | IndependentGrocer | CanadianTire | Transport | Dining

  /** The string each merchant option carries in the page's union type. */
  function MerchantName(m: Merchant): string {
    match m
    case Walmart => "Walmart"
    case FreshCo => "FreshCo"
    case NoFrills => "No Frills"
    case Loblaws => "Loblaws"
    case Costco => "Costco"
    case IndependentGrocer => "Independent Grocer"
    case CanadianTire => "Canadian Tire"
    case Transport => "Transport"
    case Dining => "Dining"
  }

  /** The profile collected at step 1; `dob` is the date input's "YYYY-MM-DD" text. */
  datatype UserProfile = UserProfile(name: string, dob: string, cell: string, email: string)

  const EmptyProfile := UserProfile("", "", "", "")

  /** The four inputs of the profile form. */
  datatype ProfileField = Name | Dob | Cell | Email

  /** The two shapes of answer the page accepts from the recommendation service. */
  datatype RecommendResp =
    | Recommended(recommended_card: string, reason: string)
    | UseCard(use_card: string, reason: string)

  /** The four checks of the profile form that can fail, each with the message shown for it. */
  datatype AuthError = NameMissing | DobMissing | CellMissing | EmailInvalid

  function Message(e: AuthError): string {
    match e
    case NameMissing => "Please enter your name."
    case DobMissing => "Please select your date of birth."
    case CellMissing => "Please enter your cell number."
    case EmailInvalid => "Please enter a valid email address."
  }

  /** Each failed check has its own message, so the text on screen names the check. */
  lemma MessagesDistinct(e: AuthError, f: AuthError)
    ensures Message(e) == Message(f) <==> e == f
  {
    if e != f {
      assert Message(e)[18] != Message(f)[18];
    }
  }

  // ---------------------------------------------------------------------
  // The derived step

  /**
   * The `useMemo` that picks the active step. `cardCount == 0` stands for
   * JavaScript's falsy `!cardCount`.
   */
  function DeriveStep(isAuthed: bool, cardCount: int, banksLength: nat): (step: int)
    ensures 1 <= step <= 4
    ensures step == 1 <==> !isAuthed
    ensures step == 2 <==> isAuthed && cardCount == 0
    ensures step == 3 <==> isAuthed && cardCount != 0 && banksLength != cardCount
    ensures step == 4 <==> isAuthed && cardCount != 0 && banksLength == cardCount
  {
    if !isAuthed then 1
    else if isAuthed && cardCount == 0 then 2
    else if isAuthed && cardCount != 0 && banksLength != cardCount then 3
    else 4
  }

  // ---------------------------------------------------------------------
  // Bank selection as a list without repeats

  predicate NoDup<T(==)>(s: seq<T>) {
    forall i, j :: 0 <= i < j < |s| ==> s[i] != s[j]
  }

  /** `s.filter((x) => x !== b)`: every occurrence of `b` dropped, the rest in order. */
  function Without<T(==)>(s: seq<T>, b: T): (r: seq<T>)
    ensures |r| <= |s|
    ensures b !in r
    ensures multiset(r) == multiset(s)[b := 0]
  {
    if s == [] then []
    else
      assert s == [s[0]] + s[1..];
      if s[0] == b then Without(s[1..], b) else [s[0]] + Without(s[1..], b)
  }

  /** Dropping a value keeps a list free of repeats. */
  lemma {:induction false} WithoutKeepsNoDup<T>(s: seq<T>, b: T)
    requires NoDup(s)
    ensures NoDup(Without(s, b))
  {
    if s != [] {
      var rest := Without(s[1..], b);
      assert NoDup(s[1..]);
      WithoutKeepsNoDup(s[1..], b);
      if s[0] != b {
        assert s == [s[0]] + s[1..];
        assert s[0] !in s[1..];
        assert multiset(rest)[s[0]] == multiset(s[1..])[s[0]] == 0;
        assert Without(s, b) == [s[0]] + rest;
      }
    }
  }

  lemma {:induction false} WithoutAbsent<T>(s: seq<T>, b: T)
    requires b !in s
    ensures Without(s, b) == s
  {
    if s != [] {
      WithoutAbsent(s[1..], b);
    }
  }

  lemma {:induction false} WithoutConcat<T>(s: seq<T>, t: seq<T>, b: T)
    ensures Without(s + t, b) == Without(s, b) + Without(t, b)
  {
    if s == [] {
      assert s + t == t;
    } else {
      assert (s + t)[1..] == s[1..] + t;
      WithoutConcat(s[1..], t, b);
    }
  }

  lemma OccursOnce<T>(s: seq<T>, i: nat)
    requires i < |s| && NoDup(s)
    ensures s[i] !in s[..i] && s[i] !in s[i + 1..]
  {
    var post := s[i + 1..];
    forall k | 0 <= k < |post|
      ensures post[k] != s[i]
    {
      assert post[k] == s[i + 1 + k];
    }
  }

  /**
   * Removing a bank that occurs once deletes exactly its position: the banks
   * before and after it keep their order.
   */
  lemma RemoveKeepsOrder<T>(s: seq<T>, i: nat)
    requires i < |s| && NoDup(s)
    ensures Without(s, s[i]) == s[..i] + s[i + 1..]
  {
    OccursOnce(s, i);
    assert s == s[..i] + [s[i]] + s[i + 1..];
    WithoutBetween(s[..i], s[i], s[i + 1..]);
  }

  lemma WithoutBetween<T>(pre: seq<T>, b: T, post: seq<T>)
    requires b !in pre && b !in post
    ensures Without(pre + [b] + post, b) == pre + post
  {
    WithoutAppended(pre, b);
    WithoutConcat(pre + [b], post, b);
    WithoutAbsent(post, b);
  }

  lemma WithoutAppended<T>(pre: seq<T>, b: T)
    requires b !in pre
    ensures Without(pre + [b], b) == pre
  {
    WithoutConcat(pre, [b], b);
    WithoutSelf(b);
    WithoutAbsent(pre, b);
  }

  lemma WithoutSelf<T>(b: T)
    ensures Without([b], b) == []
  {
    assert [b][1..] == [];
  }

  /** The `setBanks` updater of `toggleBank`. */
  function Toggled(prev: seq<Bank>, b: Bank, cardCount: int): (r: seq<Bank>)
    ensures b in prev ==> b !in r && multiset(r) == multiset(prev)[b := 0]
    ensures b !in prev && |prev| >= cardCount ==> r == prev
    ensures b !in prev && |prev| < cardCount ==> r == prev + [b]
  {
    if b in prev then Without(prev, b)
    else if |prev| >= cardCount then prev
    else prev + [b]
  }

  /** A toggle keeps the selection free of repeats and within the card count. */
  lemma ToggleKeepsInvariant(prev: seq<Bank>, b: Bank, cardCount: int)
    ensures NoDup(prev) ==> NoDup(Toggled(prev, b, cardCount))
    ensures |prev| <= cardCount ==> |Toggled(prev, b, cardCount)| <= cardCount
  {
    if b in prev {
      var r := Without(prev, b);
      assert multiset(r)[b] < multiset(prev)[b];
      assert |multiset(r)| < |multiset(prev)|;
      if NoDup(prev) {
        WithoutKeepsNoDup(prev, b);
      }
    } else if NoDup(prev) && |prev| < cardCount {
      assert NoDup(prev + [b]);
    }
  }

  /** Deselecting a bank that is selected once removes it from its place; the others keep their order. */
  lemma ToggleRemovesInPlace(prev: seq<Bank>, i: nat, cardCount: int)
    requires i < |prev| && NoDup(prev)
    ensures Toggled(prev, prev[i], cardCount) == prev[..i] + prev[i + 1..]
  {
    RemoveKeepsOrder(prev, i);
  }

  /** Whether a bank's button is greyed out: not selected, and the limit is reached. */
  predicate BankDisabled(banks: seq<Bank>, b: Bank, cardCount: int) {
    b !in banks && |banks| >= cardCount
  }

  /** A toggle leaves the selection as it was exactly when the button is disabled. */
  lemma ToggleNoOpIffDisabled(prev: seq<Bank>, b: Bank, cardCount: int)
    ensures Toggled(prev, b, cardCount) == prev <==> BankDisabled(prev, b, cardCount)
  {
    if b in prev {
      assert b !in Toggled(prev, b, cardCount);
    } else if |prev| < cardCount {
      assert |Toggled(prev, b, cardCount)| == |prev| + 1;
    }
  }

  /** Selecting a bank and then deselecting it restores the earlier selection. */
  lemma ToggleTwiceRestores(prev: seq<Bank>, b: Bank, cardCount: int)
    requires b !in prev && |prev| < cardCount
    ensures Toggled(Toggled(prev, b, cardCount), b, cardCount) == prev
  {
    WithoutConcat(prev, [b], b);
    WithoutAbsent(prev, b);
    assert Without([b], b) == Without([b][1..], b);
  }

  /** `prev.slice(0, n)`: the first `n` banks, or all of them when there are fewer. */
  function Take(prev: seq<Bank>, n: nat): (r: seq<Bank>)
    ensures |r| == if n < |prev| then n else |prev|
    ensures r <= prev
    ensures NoDup(prev) ==> NoDup(r)
  {
    if n < |prev| then prev[..n] else prev
  }

  // ---------------------------------------------------------------------
  // Profile validation

  /** A character allowed in each part of the address pattern: `[^\s@]`. */
  predicate Plain(c: char) {
    !IsSpace(JavaScript, c) && c != '@'
  }

  predicate AllPlain(s: string) {
    forall k :: 0 <= k < |s| ==> Plain(s[k])
  }

  /**
   * The pattern `^[^\s@]+@[^\s@]+\.[^\s@]+$` read as a statement about `t`:
   * it is a non-empty local part, '@', a non-empty name, '.', a non-empty rest.
   */
  ghost predicate MatchesEmailPattern(t: string) {
    exists a, b, c :: AddressParts(t, a, b, c)
  }

  ghost predicate AddressParts(t: string, a: string, b: string, c: string) {
    t == a + "@" + b + "." + c
    && a != [] && b != [] && c != []
    && AllPlain(a) && AllPlain(b) && AllPlain(c)
  }

  /** The first index of `c` in `s`, if any. */
  function IndexOf(s: string, c: char): (r: Option<nat>)
    ensures r.None? ==> c !in s
    ensures r.Some? ==> r.value < |s| && s[r.value] == c && c !in s[..r.value]
  {
    if s == [] then None
    else if s[0] == c then Some(0)
    else
      match IndexOf(s[1..], c)
      case None => None
      case Some(i) =>
        assert s[..i + 1] == [s[0]] + s[1..][..i];
        Some(i + 1)
  }

  /** A domain part: no whitespace or '@', and a '.' with something on each side. */
  predicate DomainOk(d: string) {
    AllPlain(d) && exists j :: 0 < j < |d| - 1 && d[j] == '.'
  }

  /** The test `isValidEmail` applies to the trimmed text: split at its first '@'. */
  predicate SplitsAsAddress(t: string) {
    match IndexOf(t, '@')
    case None => false
    case Some(i) => 0 < i && AllPlain(t[..i]) && DomainOk(t[i + 1..])
  }

  /** `isValidEmail`: the pattern test on the trimmed address. */
  function IsValidEmail(email: string): bool {
    SplitsAsAddress(Trim(JavaScript, email))
  }

  /** The first '@' after a local part free of '@' is the one that follows it. */
  lemma {:induction false} IndexOfAfterLocalPart(a: string, d: string)
    requires AllPlain(a)
    ensures IndexOf(a + "@" + d, '@') == Some(|a|)
  {
    var t := a + "@" + d;
    if a == [] {
      assert t[0] == '@';
    } else {
      assert t[0] == a[0] && Plain(a[0]);
      assert t[1..] == a[1..] + "@" + d;
      IndexOfAfterLocalPart(a[1..], d);
    }
  }

  lemma MatchesIfValid(t: string, i: nat)
    requires IndexOf(t, '@') == Some(i)
    requires 0 < i && AllPlain(t[..i]) && DomainOk(t[i + 1..])
    ensures MatchesEmailPattern(t)
  {
    var d := t[i + 1..];
    var j :| 0 < j < |d| - 1 && d[j] == '.';
    SplitAround(t, i);
    SplitAround(d, j);
    AllPlainSlices(d, j);
    assert AddressParts(t, t[..i], d[..j], d[j + 1..]);
  }

  lemma SplitAround(s: string, i: nat)
    requires i < |s|
    ensures s == s[..i] + [s[i]] + s[i + 1..]
  {
  }

  lemma AllPlainSlices(d: string, j: nat)
    requires AllPlain(d) && j < |d|
    ensures AllPlain(d[..j]) && AllPlain(d[j + 1..])
  {
    var c := d[j + 1..];
    forall k | 0 <= k < |c|
      ensures Plain(c[k])
    {
      assert c[k] == d[j + 1 + k];
    }
  }

  lemma ValidIfMatches(t: string, a: string, b: string, c: string)
    requires AddressParts(t, a, b, c)
    ensures IndexOf(t, '@') == Some(|a|)
    ensures t[..|a|] == a && DomainOk(t[|a| + 1..])
  {
    var d := b + "." + c;
    assert t == a + "@" + d;
    IndexOfAfterLocalPart(a, d);
    assert t[|a| + 1..] == d;
    assert d[|b|] == '.';
    forall k | 0 <= k < |d| ensures Plain(d[k]) {
      if k < |b| {
        assert d[k] == b[k];
      } else if k > |b| {
        assert d[k] == c[k - |b| - 1];
      }
    }
  }

  /** `isValidEmail` accepts exactly the trimmed addresses that fit the pattern. */
  lemma IsValidEmailIffPattern(email: string)
    ensures IsValidEmail(email) <==> MatchesEmailPattern(Trim(JavaScript, email))
  {
    SplitsIffPattern(Trim(JavaScript, email));
  }

  /** Splitting at the first '@' accepts exactly the texts that fit the pattern. */
  lemma SplitsIffPattern(t: string)
    ensures SplitsAsAddress(t) <==> MatchesEmailPattern(t)
  {
    if SplitsAsAddress(t) {
      MatchesIfValid(t, IndexOf(t, '@').value);
    }
    if MatchesEmailPattern(t) {
      var a, b, c :| AddressParts(t, a, b, c);
      ValidIfMatches(t, a, b, c);
    }
  }

  /** An address that fits the pattern is non-empty, so `!user.email.trim()` adds nothing. */
  lemma PatternImpliesNonEmpty(t: string)
    requires MatchesEmailPattern(t)
    ensures t != []
  {
    var a, b, c :| AddressParts(t, a, b, c);
    assert |t| == |a| + 1 + |b| + 1 + |c|;
  }

  /** Every check of `validateAuth` passes. */
  ghost predicate ProfileAccepted(u: UserProfile) {
    Trim(JavaScript, u.name) != [] && u.dob != [] && Trim(JavaScript, u.cell) != [] && MatchesEmailPattern(Trim(JavaScript, u.email))
  }

  /** `validateAuth`: the message of the first failing check, or none when the profile passes. */
  function ValidateAuth(u: UserProfile): Option<AuthError> {
    if Trim(JavaScript, u.name) == [] then Some(NameMissing)
    else if u.dob == [] then Some(DobMissing)
    else if Trim(JavaScript, u.cell) == [] then Some(CellMissing)
    else if Trim(JavaScript, u.email) == [] || !IsValidEmail(u.email) then Some(EmailInvalid)
    else None
  }

  /** Which message `validateAuth` reports: that of the first check, in order name, dob, cell, email, that fails. */
  lemma ValidateAuthFirstFailure(u: UserProfile)
    ensures ValidateAuth(u) == Some(NameMissing) <==> Trim(JavaScript, u.name) == []
    ensures ValidateAuth(u) == Some(DobMissing) <==> Trim(JavaScript, u.name) != [] && u.dob == []
    ensures ValidateAuth(u) == Some(CellMissing) <==>
      Trim(JavaScript, u.name) != [] && u.dob != [] && Trim(JavaScript, u.cell) == []
    ensures ValidateAuth(u) == Some(EmailInvalid) <==>
      Trim(JavaScript, u.name) != [] && u.dob != [] && Trim(JavaScript, u.cell) != [] && !MatchesEmailPattern(Trim(JavaScript, u.email))
    ensures ValidateAuth(u) == None <==> ProfileAccepted(u)
  {
    IsValidEmailIffPattern(u.email);
    if MatchesEmailPattern(Trim(JavaScript, u.email)) {
      PatternImpliesNonEmpty(Trim(JavaScript, u.email));
    }
  }

  // ---------------------------------------------------------------------
  // Request and response at the service boundary

  /** `normalizeMerchantForApi`: Transport is sent as "Other", every other merchant by its own name. */
  function NormalizeMerchantForApi(m: Merchant): (r: string)
    ensures m == Transport ==> r == "Other"
    ensures m != Transport ==> r == MerchantName(m)
    ensures r != "groceries" && r != "travel"
  {
    if m == Transport then "Other" else MerchantName(m)
  }

  /** Distinct merchants are sent as distinct strings: the mapping loses nothing. */
  lemma NormalizeMerchantInjective(m: Merchant, n: Merchant)
    requires NormalizeMerchantForApi(m) == NormalizeMerchantForApi(n)
    ensures m == n
  {
  }

  /** The card and reason the result panel shows, whichever of the two shapes arrived. */
  function Shown(r: RecommendResp): (string, string) {
    if r.Recommended? then (r.recommended_card, r.reason) else (r.use_card, r.reason)
  }

  lemma BothShapesShownAlike(card: string, reason: string)
    ensures Shown(Recommended(card, reason)) == Shown(UseCard(card, reason)) == (card, reason)
  {
  }

  // ---------------------------------------------------------------------
  // The component's state

  class Home {
    var user: UserProfile
    var isAuthed: bool
    var cardCount: int
    var banks: seq<Bank>
    var merchant: Merchant
    var result: Option<RecommendResp>
    var error: Option<string>

    /** The invariants the handlers keep: a count the buttons offer, no repeated bank, no more banks than cards. */
    ghost predicate Valid()
      reads this`cardCount, this`banks
    {
      1 <= cardCount <= 5 && NoDup(banks) && |banks| <= cardCount
    }

    /** The step shown, recomputed from the state on every read. */
    function Step(): (step: int)
      reads this
      ensures 1 <= step <= 4
      ensures step == 1 <==> !isAuthed
      ensures step == 4 <==> isAuthed && cardCount != 0 && |banks| == cardCount
    {
      DeriveStep(isAuthed, cardCount, |banks|)
    }

    /** The first render: every `useState` at its initial value. */
    constructor ()
      ensures user == EmptyProfile && !isAuthed && cardCount == 1 && banks == []
      ensures merchant == Walmart && result == None && error == None
      ensures Valid() && Step() == 1
    {
      user := EmptyProfile;
      isAuthed := false;
      cardCount := 1;
      banks := [];
      merchant := Walmart;
      result := None;
      error := None;
    }

    /** `toggleBank(b)`: clears error and result, then selects or deselects `b`. */
    method ToggleBank(b: Bank)
      modifies this`banks, this`error, this`result
      ensures banks == Toggled(old(banks), b, cardCount)
      ensures error == None && result == None
      ensures old(Valid()) ==> Valid()
      ensures b in old(banks) ==> b !in banks
      ensures b !in old(banks) && |old(banks)| < cardCount ==> banks == old(banks) + [b]
      ensures b !in old(banks) && |old(banks)| >= cardCount ==> banks == old(banks)
    {
      ToggleKeepsInvariant(banks, b, cardCount);
      error := None;
      result := None;
      banks := Toggled(banks, b, cardCount);
    }

    /** The handler of the card-count button labelled `n`. */
    method ChooseCardCount(n: nat)
      requires 1 <= n <= 5
      modifies this`cardCount, this`banks, this`result, this`error
      ensures cardCount == n && banks == Take(old(banks), n)
      ensures |banks| <= n && banks <= old(banks)
      ensures result == None && error == None
      ensures NoDup(old(banks)) ==> Valid()
      ensures isAuthed ==> Step() == (if |old(banks)| >= n then 4 else 3)
    {
      cardCount := n;
      banks := Take(banks, n);
      result := None;
      error := None;
    }

    /** The merchant dropdown's change handler. */
    method ChooseMerchant(m: Merchant)
      modifies this`merchant, this`result, this`error
      ensures merchant == m && result == None && error == None
    {
      merchant := m;
      result := None;
      error := None;
    }

    /** The change handler of one profile input: that field takes the typed text, nothing is validated. */
    method EditProfile(field: ProfileField, value: string)
      modifies this`user
      ensures field == Name ==> user == old(user).(name := value)
      ensures field == Dob ==> user == old(user).(dob := value)
      ensures field == Cell ==> user == old(user).(cell := value)
      ensures field == Email ==> user == old(user).(email := value)
    {
      match field
      case Name => user := user.(name := value);
      case Dob => user := user.(dob := value);
      case Cell => user := user.(cell := value);
      case Email => user := user.(email := value);
    }

    /** `resetAll`: every slot back to its first-render value. */
    method ResetAll()
      modifies this
      ensures user == EmptyProfile && !isAuthed && cardCount == 1 && banks == []
      ensures merchant == Walmart && result == None && error == None
      ensures Valid() && Step() == 1
    {
      isAuthed := false;
      user := EmptyProfile;
      cardCount := 1;
      banks := [];
      merchant := Walmart;
      result := None;
      error := None;
    }

    /** `handleAuthSubmit`: on the first failing check show its message, otherwise sign in. */
    method HandleAuthSubmit()
      modifies this`isAuthed, this`error
      ensures ValidateAuth(user).Some? ==> error == Some(Message(ValidateAuth(user).value))
      ensures ValidateAuth(user).None? ==> error == None
      ensures isAuthed == (old(isAuthed) || ValidateAuth(user).None?)
    {
      error := None;
      var err := ValidateAuth(user);
      if err.Some? {
        error := Some(Message(err.value));
      } else {
        isAuthed := true;
      }
    }
  }
}
