/** The wedding-gift section: the two buttons that open the bank-transfer or
    the delivery-address panel, the strings put on the clipboard, and the
    "copied" indicator with its delayed reset. The clipboard is a field of
    the state; the 2000 ms timer is a pending reset that fires later, in the
    order the resets were scheduled. */
module Gift {
  import opened Wrappers
  import opened Text
  import opened Config

  /** `activeTab`: `null`, `"bank"` or `"address"`. */
  datatype Tab = NoTab | BankTab | AddressTab

  /** The "Digital Transfer" button. */
  function ToggleBank(t: Tab): (r: Tab)
    ensures r == NoTab <==> t == BankTab
    ensures r == BankTab <==> t != BankTab
  {
    if t == BankTab then NoTab else BankTab
  }

  /** The "Send Gift" button. */
  function ToggleAddress(t: Tab): (r: Tab)
    ensures r == NoTab <==> t == AddressTab
    ensures r == AddressTab <==> t != AddressTab
  {
    if t == AddressTab then NoTab else AddressTab
  }

  datatype Panel = BankPanel | AddressPanel

  /** The content panels rendered for a tab. */
  function Panels(t: Tab): (r: set<Panel>)
    ensures |r| <= 1
    ensures BankPanel in r <==> t == BankTab
    ensures AddressPanel in r <==> t == AddressTab
  {
    match t
    case NoTab => {}
    case BankTab => {BankPanel}
    case AddressTab => {AddressPanel}
  }

  datatype Click = BankClick | AddressClick

  /** The tab after a sequence of button clicks. */
  function ApplyClicks(t: Tab, clicks: seq<Click>): Tab
    decreases |clicks|
  {
    if |clicks| == 0 then t
    else
      var last := clicks[|clicks| - 1];
      var before := ApplyClicks(t, clicks[..|clicks| - 1]);
      if last == BankClick then ToggleBank(before) else ToggleAddress(before)
  }

  /** The number of `c` clicks at the end of the sequence. */
  function TrailingRun(clicks: seq<Click>, c: Click): (n: nat)
    ensures n <= |clicks|
    ensures forall i :: |clicks| - n <= i < |clicks| ==> clicks[i] == c
    ensures n < |clicks| ==> clicks[|clicks| - n - 1] != c
  {
    if |clicks| == 0 || clicks[|clicks| - 1] != c then 0
    else TrailingRun(clicks[..|clicks| - 1], c) + 1
  }

  /** Starting from the closed state, the bank panel is open after a click
      sequence exactly when it ends in an odd number of bank clicks, and
      likewise for the address panel. */
  lemma {:induction false} ClicksDecideTab(clicks: seq<Click>)
    ensures ApplyClicks(NoTab, clicks) == BankTab <==> TrailingRun(clicks, BankClick) % 2 == 1
    ensures ApplyClicks(NoTab, clicks) == AddressTab <==> TrailingRun(clicks, AddressClick) % 2 == 1
    decreases |clicks|
  {
    if |clicks| > 0 {
      ClicksDecideTab(clicks[..|clicks| - 1]);
    }
  }

  // ---------------------------------------------------------------------
  // Clipboard strings

  /** `s.replace(/\s/g, "")`: every whitespace character removed. */
  function StripWhitespace(s: string): (r: string)
    ensures |r| <= |s|
    ensures forall i :: 0 <= i < |r| ==> !IsJsWhitespace(r[i])
    ensures (forall i :: 0 <= i < |s| ==> !IsJsWhitespace(s[i])) ==> r == s
  {
    if |s| == 0 then []
    else (if IsJsWhitespace(s[0]) then [] else [s[0]]) + StripWhitespace(s[1..])
  }

  /** Stripping works piecewise: the characters that remain keep their
      order. */
  lemma {:induction false} StripWhitespaceAppend(a: string, b: string)
    ensures StripWhitespace(a + b) == StripWhitespace(a) + StripWhitespace(b)
    decreases |a|
  {
    if |a| == 0 {
      assert a + b == b;
    } else {
      assert (a + b)[0] == a[0];
      assert (a + b)[1..] == a[1..] + b;
      StripWhitespaceAppend(a[1..], b);
    }
  }

  /** Every character that is not whitespace is kept as often as it occurs. */
  lemma {:induction false} StripWhitespaceKeepsCounts(s: string, c: char)
    requires !IsJsWhitespace(c)
    ensures multiset(StripWhitespace(s))[c] == multiset(s)[c]
    decreases |s|
  {
    if |s| > 0 {
      assert s == [s[0]] + s[1..];
      StripWhitespaceKeepsCounts(s[1..], c);
    }
  }

  lemma StripWhitespaceIdempotent(s: string)
    ensures StripWhitespace(StripWhitespace(s)) == StripWhitespace(s)
  {
  }

  lemma StripDigits(s: string)
    requires AllDigits(s)
    ensures StripWhitespace(s) == s
  {
    forall i | 0 <= i < |s|
      ensures !IsJsWhitespace(s[i])
    {
      assert IsDigit(s[i]);
    }
  }

  lemma StripSpace()
    ensures StripWhitespace(" ") == ""
  {
    assert IsJsWhitespace(" "[0]);
    assert " "[1..] == "";
  }

  /** A number written in space-separated digit groups is copied as the
      digits alone. */
  lemma StripDigitGroups(a: string, b: string, c: string)
    requires AllDigits(a) && AllDigits(b) && AllDigits(c)
    ensures StripWhitespace(a + " " + b + " " + c) == a + b + c
  {
    StripDigits(a);
    StripDigits(b);
    StripDigits(c);
    StripSpace();
    var x := a + " ";
    var y := x + b;
    var z := y + " ";
    StripWhitespaceAppend(a, " ");
    assert StripWhitespace(x) == a;
    StripWhitespaceAppend(x, b);
    assert StripWhitespace(y) == a + b;
    StripWhitespaceAppend(y, " ");
    assert StripWhitespace(z) == a + b;
    StripWhitespaceAppend(z, c);
  }

  /** The first account number of the configuration. */
  lemma ShippedAccountNumber()
    ensures StripWhitespace("123" + " " + "456" + " " + "7890") == "1234567890"
  {
    StripDigitGroups("123", "456", "7890");
  }

  /** The "Copy Address" text: street, a comma and a space, then city. */
  function AddressCopyText(a: Address): (r: string)
    ensures |r| == |a.street| + 2 + |a.city|
    ensures r[..|a.street|] == a.street && r[|a.street|..|a.street| + 2] == ", "
    ensures r[|a.street| + 2..] == a.city
  {
    a.street + ", " + a.city
  }

  // ---------------------------------------------------------------------
  // The copied indicator

  /** The entries that carry a copy button. */
  datatype CopyTarget = Account(index: nat) | DeliveryAddress

  /** `acc${index}` and `"addr"`. */
  function CopyId(t: CopyTarget): string {
    match t
    case Account(i) => "acc" + NatToString(i)
    case DeliveryAddress => "addr"
  }

  lemma CopyIdThirdChar(t: CopyTarget)
    ensures |CopyId(t)| >= 3 && CopyId(t)[2] == if t.Account? then 'c' else 'd'
  {
  }

  /** Distinct entries have distinct ids, so the indicator can mark at most
      one of them. */
  lemma CopyIdInjective(a: CopyTarget, b: CopyTarget)
    ensures CopyId(a) == CopyId(b) <==> a == b
  {
    CopyIdThirdChar(a);
    CopyIdThirdChar(b);
    if CopyId(a) == CopyId(b) {
      if a.Account? && b.Account? {
        assert NatToString(a.index) == CopyId(a)[3..] && NatToString(b.index) == CopyId(b)[3..];
        NatToStringInjective(a.index, b.index);
      }
    }
  }

  /** The section's state: open tab, `copiedIndex`, the clipboard contents
      and the number of scheduled resets not yet fired. */
  datatype GiftState = GiftState(tab: Tab, copied: Option<string>, clipboard: string, pendingResets: nat)

  const Initial := GiftState(NoTab, None, "", 0)

  /** `handleCopy(text, id)`. */
  function Copy(st: GiftState, text: string, id: string): (r: GiftState)
    ensures r.clipboard == text && r.copied == Some(id)
    ensures r.pendingResets == st.pendingResets + 1
    ensures r.tab == st.tab
  {
    GiftState(st.tab, Some(id), text, st.pendingResets + 1)
  }

  /** The copy button of account `i`. */
  function CopyAccount(st: GiftState, accounts: seq<BankAccount>, i: nat): (r: GiftState)
    requires i < |accounts|
    ensures r.clipboard == StripWhitespace(accounts[i].accountNumber)
    ensures r.copied == Some(CopyId(Account(i)))
  {
    Copy(st, StripWhitespace(accounts[i].accountNumber), CopyId(Account(i)))
  }

  /** The copy button of the address panel. */
  function CopyAddress(st: GiftState, address: Address): (r: GiftState)
    ensures r.clipboard == AddressCopyText(address)
    ensures r.copied == Some(CopyId(DeliveryAddress))
  {
    Copy(st, AddressCopyText(address), CopyId(DeliveryAddress))
  }

  /** The oldest scheduled reset fires: the indicator is cleared, whichever
      copy set it. */
  function TimerFires(st: GiftState): (r: GiftState)
    requires st.pendingResets > 0
    ensures r.copied.None? && r.pendingResets == st.pendingResets - 1
    ensures r.tab == st.tab && r.clipboard == st.clipboard
  {
    GiftState(st.tab, None, st.clipboard, st.pendingResets - 1)
  }

  /** Clicking a tab button leaves the clipboard and the indicator alone. */
  function ClickTab(st: GiftState, c: Click): (r: GiftState)
    ensures r.copied == st.copied && r.clipboard == st.clipboard && r.pendingResets == st.pendingResets
    ensures r.tab == ApplyClicks(st.tab, [c])
  {
    var tab := if c == BankClick then ToggleBank(st.tab) else ToggleAddress(st.tab);
    GiftState(tab, st.copied, st.clipboard, st.pendingResets)
  }

  /** The check icon of an entry. */
  predicate ShowsCheck(st: GiftState, t: CopyTarget) {
    st.copied == Some(CopyId(t))
  }

  /** At most one entry shows the check icon, and it is the one copied last
      while no reset has fired since. */
  lemma OneCheckAtATime(st: GiftState, a: CopyTarget, b: CopyTarget)
    requires ShowsCheck(st, a) && ShowsCheck(st, b)
    ensures a == b
  {
    CopyIdInjective(a, b);
  }

  /** Resets are never cancelled: copying an account, then the address, and
      then letting the first copy's timer fire clears the address's check
      although its own timer is still pending. */
  lemma EarlierTimerClearsLaterCopy(accounts: seq<BankAccount>, address: Address)
    requires |accounts| > 0
    ensures var st := CopyAddress(CopyAccount(Initial, accounts, 0), address);
      && ShowsCheck(st, DeliveryAddress)
      && st.pendingResets == 2
      && !ShowsCheck(TimerFires(st), DeliveryAddress)
      && TimerFires(st).pendingResets == 1
  {
  }
}
