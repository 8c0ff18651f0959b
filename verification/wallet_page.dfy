/** The student's wallet page: the searchable, sortable transaction list, the
    optimistic redemption form, the balance updates pushed over the socket, and
    the small display maps (icon per transaction type, colour per status,
    relative date). The page keeps its state in a `WalletView`; values that
    JavaScript may hold as `undefined` or `NaN` are modelled by `Num`. */
module WalletPage {
  import opened Common
  import opened Sorting

  /** A JavaScript number as the page can hold it. */
  datatype Num = Int(n: int) | NaN | Undefined

  /** `x || 0`: undefined, NaN and 0 all give 0. */
  function Or0(x: Num): (r: int)
    ensures x.Int? ==> r == x.n
    ensures !x.Int? ==> r == 0
  {
    if x.Int? then x.n else 0
  }

  /** A transaction as the page lists it; `kind` is the record's `type`. */
  datatype ClientTxn = ClientTxn(
    kind: string,
    amount: Num,
    description: Option<string>,
    createdAt: int,
    status: Option<string>,
    upiId: Option<string>)

  // ------------------------------------------------------------- parseInt

  predicate IsDigitIn(c: char, radix: int)
  {
    if radix == 16 then '0' <= c <= '9' || 'a' <= c <= 'f' || 'A' <= c <= 'F'
    else '0' <= c <= '9'
  }

  function DigitValue(c: char): (d: nat)
    ensures '0' <= c <= '9' ==> d == c as int - '0' as int
  {
    if '0' <= c <= '9' then c as int - '0' as int
    else if 'a' <= c <= 'f' then c as int - 'a' as int + 10
    else if 'A' <= c <= 'F' then c as int - 'A' as int + 10
    else 0
  }

  /** Length of the longest prefix of `s` made of digits in `radix`. */
  function LeadingDigits(s: string, radix: int): (n: nat)
    ensures n <= |s|
    ensures forall i :: 0 <= i < n ==> IsDigitIn(s[i], radix)
    ensures n < |s| ==> !IsDigitIn(s[n], radix)
  {
    if s == [] || !IsDigitIn(s[0], radix) then 0 else 1 + LeadingDigits(s[1..], radix)
  }

  /** Value of a string of digits, most significant first. */
  function DigitsValue(s: string, radix: nat): nat
  {
    if s == [] then 0 else DigitsValue(s[..|s| - 1], radix) * radix + DigitValue(s[|s| - 1])
  }

  /** Digits after an optional sign: a "0x"/"0X" prefix selects base 16. */
  function ParseUnsigned(u: string): Option<nat>
  {
    if |u| >= 2 && u[0] == '0' && (u[1] == 'x' || u[1] == 'X') then
      var n := LeadingDigits(u[2..], 16);
      if n == 0 then None else Some(DigitsValue(u[2..][..n], 16))
    else
      var n := LeadingDigits(u, 10);
      if n == 0 then None else Some(DigitsValue(u[..n], 10))
  }

  /** JavaScript's `parseInt(s)`: leading white space is skipped, then an
      optional sign, then the longest run of digits; no digit at all gives
      `NaN` (here `None`). */
  function ParseInt(s: string): Option<int>
  {
    var t := TrimStart(s);
    if t != [] && t[0] == '-' then
      match ParseUnsigned(t[1..])
      case Some(v) => Some(-(v as int))
      case None => None
    else if t != [] && t[0] == '+' then ParseUnsigned(t[1..])
    else ParseUnsigned(t)
  }

  lemma {:induction false} DigitsValueOfNat(n: nat)
    ensures DigitsValue(NatToString(n), 10) == n
  {
    if n >= 10 {
      var s := NatToString(n);
      assert s[..|s| - 1] == NatToString(n / 10);
      DigitsValueOfNat(n / 10);
    }
  }

  lemma {:induction false} LeadingDigitsOfNat(s: string)
    requires forall i :: 0 <= i < |s| ==> '0' <= s[i] <= '9'
    ensures LeadingDigits(s, 10) == |s|
  {
    if s != [] {
      LeadingDigitsOfNat(s[1..]);
    }
  }

  lemma NatToStringFirstDigit(n: nat)
    ensures NatToString(n)[0] == '0' ==> n == 0
  {
    if n >= 10 {
      assert NatToString(n)[0] == NatToString(n / 10)[0];
      NatToStringFirstDigit(n / 10);
    }
  }

  lemma ParseUnsignedOfDecimal(n: nat)
    ensures ParseUnsigned(NatToString(n)) == Some(n)
  {
    var s := NatToString(n);
    NatToStringFirstDigit(n);
    LeadingDigitsOfNat(s);
    assert s[..|s|] == s;
    DigitsValueOfNat(n);
  }

  lemma TrimStartOfDecimal(n: nat)
    ensures TrimStart(NatToString(n)) == NatToString(n)
  {
    var s := NatToString(n);
    assert '0' <= s[0] <= '9';
    assert !IsWhitespace(s[0]);
  }

  /** Parsing the decimal rendering of a natural number gives it back. */
  lemma ParseIntOfDecimal(n: nat)
    ensures ParseInt(NatToString(n)) == Some(n)
  {
    TrimStartOfDecimal(n);
    ParseUnsignedOfDecimal(n);
    var s := NatToString(n);
    assert s[0] != '-' && s[0] != '+';
  }

  /** Parsing a negative rendering gives the negative number back. */
  lemma ParseIntOfNegative(n: nat)
    ensures ParseInt("-" + NatToString(n)) == Some(-(n as int))
  {
    ParseUnsignedOfDecimal(n);
    ParseIntOfMinus(NatToString(n));
  }

  /** A leading '-' negates what the digits after it parse to. */
  lemma ParseIntOfMinus(u: string)
    ensures ParseInt("-" + u) == if ParseUnsigned(u).Some? then Some(-(ParseUnsigned(u).value as int)) else None
  {
    var t := "-" + u;
    assert t[0] == '-' && t[1..] == u;
    assert !IsWhitespace('-');
    assert TrimStart(t) == t;
  }

  // ------------------------------------------------------------ the list

  /** A record is listed when its description contains the search text,
      ignoring case, and the type filter is "all" or its type. A record with
      no description never matches. */
  predicate Matches(t: ClientTxn, search: string, typeFilter: string)
  {
    && t.description.Some?
    && Contains(ToLower(t.description.value), ToLower(search))
    && (typeFilter == "all" || t.kind == typeFilter)
  }

  /** Sort key: `createdAt` for "newest" (descending), its negation for any
      other choice (ascending). */
  function SortKey(sortBy: string): ClientTxn -> int
  {
    if sortBy == "newest" then (t: ClientTxn) => t.createdAt else (t: ClientTxn) => -t.createdAt
  }

  /** `filteredTxns`: the matching records, newest first or oldest first. */
  function FilteredTxns(txns: seq<ClientTxn>, search: string, typeFilter: string, sortBy: string)
    : (r: seq<ClientTxn>)
    ensures multiset(r) == multiset(Filter(txns, (t: ClientTxn) => Matches(t, search, typeFilter)))
    ensures |r| == Count(txns, (t: ClientTxn) => Matches(t, search, typeFilter))
    ensures sortBy == "newest" ==> forall i, j :: 0 <= i < j < |r| ==> r[i].createdAt >= r[j].createdAt
    ensures sortBy != "newest" ==> forall i, j :: 0 <= i < j < |r| ==> r[i].createdAt <= r[j].createdAt
  {
    var kept := Filter(txns, (t: ClientTxn) => Matches(t, search, typeFilter));
    var key := SortKey(sortBy);
    var r := SortDesc(kept, key);
    assert forall i, j :: 0 <= i < j < |r| ==> key(r[i]) >= key(r[j]);
    r
  }

  /** A record is listed exactly when it is in the list and matches. */
  lemma FilteredTxnsMembers(txns: seq<ClientTxn>, search: string, typeFilter: string, sortBy: string, t: ClientTxn)
    ensures t in FilteredTxns(txns, search, typeFilter, sortBy) <==> t in txns && Matches(t, search, typeFilter)
  {
    var p := (t: ClientTxn) => Matches(t, search, typeFilter);
    FilterMultiset(txns, p, t);
    var r := FilteredTxns(txns, search, typeFilter, sortBy);
    assert t in r <==> t in multiset(r);
    assert t in txns <==> t in multiset(txns);
  }

  /** Records without a description are never listed. */
  lemma UndescribedNeverListed(txns: seq<ClientTxn>, search: string, typeFilter: string, sortBy: string, t: ClientTxn)
    requires t.description == None
    ensures t !in FilteredTxns(txns, search, typeFilter, sortBy)
  {
    FilteredTxnsMembers(txns, search, typeFilter, sortBy, t);
  }

  // --------------------------------------------------------- display maps

  datatype Icon = ArrowUpRight | ArrowDownLeft | Send | CoinsIcon

  /** `getTransactionIcon`: every type gets an icon, unknown types the coin. */
  function TransactionIcon(kind: string): (r: Icon)
    ensures r == CoinsIcon <==> kind != "credit" && kind != "debit" && kind != "redeem"
    ensures r == ArrowUpRight <==> kind == "credit"
  {
    if kind == "credit" then ArrowUpRight
    else if kind == "debit" then ArrowDownLeft
    else if kind == "redeem" then Send
    else CoinsIcon
  }

  const DefaultStatusColor := "text-gray-600 bg-gray-100"

  /** `getStatusColor`: every status gets a colour, unknown or missing ones grey. */
  function StatusColor(status: Option<string>): (r: string)
    ensures r == DefaultStatusColor <==>
      status == None || (status.value != "completed" && status.value != "pending" && status.value != "failed")
  {
    match status
    case Some("completed") => "text-green-600 bg-green-100"
    case Some("pending") => "text-yellow-600 bg-yellow-100"
    case Some("failed") => "text-red-600 bg-red-100"
    case _ => DefaultStatusColor
  }

  const HourMs := 3600000

  datatype DateLabel = NotAvailable | JustNow | HoursAgo(hours: int) | Yesterday | CalendarDate(at: int)

  /** `formatDate`: whole hours elapsed, rounded down, pick the bucket. */
  function FormatDate(date: Option<int>, now: int): (r: DateLabel)
    ensures r == NotAvailable <==> date == None
    ensures r == JustNow <==> date.Some? && now - date.value < HourMs
    ensures r.HoursAgo? ==> 1 <= r.hours < 24 && HourMs * r.hours <= now - date.value < HourMs * (r.hours + 1)
    ensures r.HoursAgo? <==> date.Some? && HourMs <= now - date.value < 24 * HourMs
    ensures r == Yesterday <==> date.Some? && 24 * HourMs <= now - date.value < 48 * HourMs
    ensures r.CalendarDate? <==> date.Some? && now - date.value >= 48 * HourMs
  {
    match date
    case None => NotAvailable
    case Some(d) =>
      var hours := (now - d) / HourMs;
      if hours < 1 then JustNow
      else if hours < 24 then HoursAgo(hours)
      else if hours < 48 then Yesterday
      else CalendarDate(d)
  }

  function LabelText(l: DateLabel, localeDate: string): string
  {
    match l
    case NotAvailable => "Not available"
    case JustNow => "Just now"
    case HoursAgo(h) => IntToString(h) + "h ago"
    case Yesterday => "Yesterday"
    case CalendarDate(_) => localeDate
  }

  // ------------------------------------------------------------ the state

  const EnterBoth := "Please enter both amount and UPI ID"
  const InsufficientBalance := "Insufficient balance"
  const Submitted := "\U{2705} Redemption request submitted successfully!"

  /** The record the page prepends after a redemption. */
  function PendingRedemption(amount: Num, upiId: string, now: int): ClientTxn
  {
    ClientTxn("redeem", amount, Some("UPI redemption to " + upiId), now, Some("pending"), Some(upiId))
  }

  /** The page state that the redemption form and the socket handlers touch. */
  datatype View = View(
    balance: Num,
    transactions: seq<ClientTxn>,
    amount: string,
    upiId: string,
    statusMsg: string,
    loading: bool)

  /** The amount field is refused when it parses to more than the balance
      shown (a missing or NaN balance counts as 0). */
  predicate OverBalance(amount: string, balance: Num)
  {
    var parsed := ParseInt(amount);
    parsed.Some? && parsed.value > Or0(balance)
  }

  /** `handleRedeem`, with the one-second delay taken as immediate. The client
      refuses only empty fields and amounts above the balance; zero, negative
      and unparsable amounts go through. */
  function Redeemed(v: View, now: int): (r: View)
    ensures (v.amount == "" || v.upiId == "") ==> r == v.(statusMsg := EnterBoth)
    ensures v.amount != "" && v.upiId != "" && OverBalance(v.amount, v.balance) ==>
      r == v.(statusMsg := InsufficientBalance)
    ensures v.amount != "" && v.upiId != "" && !OverBalance(v.amount, v.balance) ==>
      var parsed := ParseInt(v.amount);
      && r.statusMsg == Submitted
      && r.amount == "" && r.upiId == "" && !r.loading
      && |r.transactions| == |v.transactions| + 1
      && r.transactions[1..] == v.transactions
      && r.transactions[0].kind == "redeem" && r.transactions[0].status == Some("pending")
      && r.transactions[0].upiId == Some(v.upiId)
      && (parsed.Some? ==> r.transactions[0].amount == Int(parsed.value)
                           && r.balance == Int(Or0(v.balance) - parsed.value))
      && (parsed.None? ==> r.transactions[0].amount == NaN && r.balance == NaN)
  {
    if v.amount == "" || v.upiId == "" then v.(statusMsg := EnterBoth)
    else if OverBalance(v.amount, v.balance) then v.(statusMsg := InsufficientBalance)
    else Accepted(v, ParseInt(v.amount), v.upiId, now)
  }

  /** The page after an accepted redemption of the parsed amount to the UPI
      id `target`, both as they were when the button was clicked: the record
      is prepended and the balance lowered (or made NaN). */
  function Accepted(v: View, parsed: Option<int>, target: string, now: int): (r: View)
    ensures r.statusMsg == Submitted && r.amount == "" && r.upiId == "" && !r.loading
    ensures |r.transactions| == |v.transactions| + 1 && r.transactions[1..] == v.transactions
    ensures r.transactions[0] == PendingRedemption(if parsed.Some? then Int(parsed.value) else NaN, target, now)
    ensures r.balance == if parsed.Some? then Int(Or0(v.balance) - parsed.value) else NaN
  {
    var value := if parsed.Some? then Int(parsed.value) else NaN;
    var txns := [PendingRedemption(value, target, now)] + v.transactions;
    assert txns[1..] == v.transactions;
    View(if parsed.Some? then Int(Or0(v.balance) - parsed.value) else NaN, txns, "", "", Submitted, false)
  }

  /** A refused redemption changes nothing but the status line. */
  lemma RefusedRedemptionKeepsWallet(v: View, now: int)
    requires v.amount == "" || v.upiId == "" || OverBalance(v.amount, v.balance)
    ensures Redeemed(v, now).balance == v.balance
    ensures Redeemed(v, now).transactions == v.transactions
    ensures Redeemed(v, now).statusMsg in {EnterBoth, InsufficientBalance}
  {
  }

  /** A redemption of a negative amount is not refused by the page: with 10
      coins shown, redeeming "-5" shows 15. */
  lemma NegativeRedemptionRaisesBalance(v: View, now: int)
    requires v.balance == Int(10) && v.amount == "-5" && v.upiId != ""
    ensures Redeemed(v, now).balance == Int(15)
  {
    assert ParseInt(v.amount) == Some(-5) by {
      ParseIntOfNegative(5);
      assert "-" + NatToString(5) == "-5";
    }
    assert !OverBalance(v.amount, v.balance);
  }

  /** A successful redemption lowers a known balance by exactly the amount it
      records. */
  lemma RedemptionBalanceMatchesRecord(v: View, now: int)
    requires v.amount != "" && v.upiId != "" && !OverBalance(v.amount, v.balance)
    requires ParseInt(v.amount).Some?
    ensures Or0(v.balance) - Or0(Redeemed(v, now).balance) == Or0(Redeemed(v, now).transactions[0].amount)
  {
  }

  class WalletView {
    var balance: Num
    var transactions: seq<ClientTxn>
    var amount: string
    var upiId: string
    var statusMsg: string
    var loading: bool

    function State(): View
      reads this
    {
      View(balance, transactions, amount, upiId, statusMsg, loading)
    }

    constructor ()
      ensures State() == View(Int(0), [], "", "", "", false)
    {
      balance := Int(0);
      transactions := [];
      amount := "";
      upiId := "";
      statusMsg := "";
      loading := false;
    }

    method HandleRedeem(now: int)
      modifies this
      ensures State() == Redeemed(old(State()), now)
    {
      if amount == "" || upiId == "" {
        statusMsg := EnterBoth;
        return;
      }
      var parsed := ParseInt(amount);
      if parsed.Some? && parsed.value > Or0(balance) {
        statusMsg := InsufficientBalance;
        return;
      }
      loading := true;
      RedemptionTimer(parsed, upiId, now);
    }

    /** The one-second timer of `handleRedeem`, given the amount as parsed
        there and the UPI id the timer's closure captured at the click: the
        record is prepended and the balance lowered by that amount. */
    method RedemptionTimer(parsed: Option<int>, target: string, now: int)
      modifies this
      ensures State() == Accepted(old(State()), parsed, target, now)
    {
      var value := if parsed.Some? then Int(parsed.value) else NaN;
      statusMsg := Submitted;
      amount := "";
      upiId := "";
      loading := false;
      transactions := [PendingRedemption(value, target, now)] + transactions;
      balance := if parsed.Some? then Int(Or0(balance) - parsed.value) else NaN;
    }

    /** The status line is cleared three seconds after a submission. */
    method ClearStatus()
      modifies this
      ensures State() == old(State()).(statusMsg := "")
    {
      statusMsg := "";
    }

    /** Socket `game-completed`: the server's new balance replaces ours. */
    method GameCompleted(newBalance: Num)
      modifies this
      ensures State() == old(State()).(balance := newBalance)
    {
      balance := newBalance;
    }

    /** Socket `challenge-completed`: the reward is added, a missing reward
        counting as 0 and a missing balance as 0. */
    method ChallengeCompleted(rewardCoins: Num)
      modifies this
      ensures State() == old(State()).(balance := Int(Or0(old(balance)) + Or0(rewardCoins)))
    {
      balance := Int(Or0(balance) + Or0(rewardCoins));
    }
  }
}
