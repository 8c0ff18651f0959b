/** The HealCoin wallet ledger behind `/api/wallet`: one wallet per user holding
    a balance, and an append-only log of transactions. Crediting creates a
    missing wallet with balance 0; debiting and redemption requests are guarded
    by a balance check; a redemption debits at once and logs a `redeem` record
    whose status is "pending".

    The persistent stores are modelled as a map from user id to wallet and a
    sequence of transactions. `Store` and the functions over it say what each
    request does; class `Ledger` performs the same requests by updating its
    fields step by step and is proved to agree with them. The ledger invariant
    `Consistent` (every balance equals that user's credits minus debits minus
    redemptions and is never negative) is preserved by every request. */
module WalletController {
  import opened Common
  import opened Sorting

  type UserId = string

  datatype TxnType = Credit | Debit | Redeem

  /** A transaction record. `status` and `upiId` are set only on redemption
      records; `createdAt` is the creation time (milliseconds since the epoch). */
  datatype Transaction = Transaction(
    userId: UserId,
    kind: TxnType,
    amount: int,
    description: string,
    status: Option<string>,
    upiId: Option<string>,
    createdAt: int)

  datatype Wallet = Wallet(userId: UserId, balance: int, lastUpdated: int)

  /** The error answers of the controller. */
  datatype Failure =
    | WalletNotFound
    | InvalidAmount
    | InsufficientBalance
    | MissingRedemptionFields
    | NonPositiveAmount
    | InsufficientWalletBalance

  function HttpStatus(f: Failure): (code: int)
    ensures code == 404 <==> f == WalletNotFound
    ensures code == 400 <==> f != WalletNotFound
  {
    if f == WalletNotFound then 404 else 400
  }

  function Message(f: Failure): string
  {
    match f
    case WalletNotFound => "Wallet not found"
    case InvalidAmount => "Invalid amount"
    case InsufficientBalance => "Insufficient balance"
    case MissingRedemptionFields => "Amount and UPI ID are required"
    case NonPositiveAmount => "Amount must be greater than zero"
    case InsufficientWalletBalance => "Insufficient wallet balance"
  }

  datatype Outcome<T> = Success(value: T) | Failed(failure: Failure)

  datatype Store = Store(wallets: map<UserId, Wallet>, log: seq<Transaction>)

  /** The state of a request together with what it answered. */
  datatype Step<T> = Step(store: Store, outcome: Outcome<T>)

  /** The answer of a successful redemption request: the updated wallet and
      the logged record. */
  datatype Redemption = Redemption(wallet: Wallet, transaction: Transaction)

  const EmptyStore := Store(map[], [])

  /** Balance before a request, counting a missing wallet as empty. */
  function BalanceOf(st: Store, user: UserId): int
  {
    if user in st.wallets then st.wallets[user].balance else 0
  }

  // ---------------------------------------------------------------- requests

  /** GET /api/wallet. */
  function LookupWallet(st: Store, user: UserId): (r: Outcome<Wallet>)
    ensures r.Failed? <==> user !in st.wallets
    ensures r.Failed? ==> r.failure == WalletNotFound && HttpStatus(r.failure) == 404
    ensures r.Success? ==> r.value == st.wallets[user]
  {
    if user in st.wallets then Success(st.wallets[user]) else Failed(WalletNotFound)
  }

  /** `!amount || amount <= 0`: a missing or zero amount is falsy. */
  predicate BadAmount(amount: Option<int>)
  {
    amount == None || amount.value <= 0
  }

  /** POST /api/wallet/add: answers the new balance. */
  function AddCoinsStep(st: Store, user: UserId, amount: Option<int>, description: Option<string>, now: int)
    : (r: Step<int>)
    ensures r.outcome.Failed? <==> BadAmount(amount)
    ensures r.outcome.Failed? ==> r.outcome.failure == InvalidAmount && r.store == st
    ensures r.outcome.Success? ==>
      && r.outcome.value == BalanceOf(st, user) + amount.value
      && (user !in st.wallets ==> r.outcome.value == amount.value)
      && user in r.store.wallets
      && r.store.wallets[user].balance == r.outcome.value
      && r.store.wallets[user].lastUpdated == now
      && r.store.wallets[user].userId == (if user in st.wallets then st.wallets[user].userId else user)
      && r.store.wallets == st.wallets[user := r.store.wallets[user]]
      && r.store.log == st.log + [Transaction(user, Credit, amount.value,
                                              StrOr(description, "HealCoins added"), None, None, now)]
  {
    if BadAmount(amount) then Step(st, Failed(InvalidAmount))
    else
      var created := if user in st.wallets then st.wallets[user] else Wallet(user, 0, now);
      var w := created.(balance := created.balance + amount.value, lastUpdated := now);
      var t := Transaction(user, Credit, amount.value, StrOr(description, "HealCoins added"), None, None, now);
      Step(Store(st.wallets[user := w], st.log + [t]), Success(w.balance))
  }

  /** POST /api/wallet/spend: answers the new balance. */
  function SpendCoinsStep(st: Store, user: UserId, amount: Option<int>, description: Option<string>, now: int)
    : (r: Step<int>)
    ensures BadAmount(amount) ==> r == Step(st, Failed(InvalidAmount))
    ensures !BadAmount(amount) && (user !in st.wallets || st.wallets[user].balance < amount.value) ==>
      r == Step(st, Failed(InsufficientBalance))
    ensures r.outcome.Success? <==>
      !BadAmount(amount) && user in st.wallets && st.wallets[user].balance >= amount.value
    ensures r.outcome.Success? ==>
      && r.outcome.value == st.wallets[user].balance - amount.value >= 0
      && r.store.wallets == st.wallets[user := st.wallets[user].(balance := r.outcome.value, lastUpdated := now)]
      && r.store.log == st.log + [Transaction(user, Debit, amount.value,
                                              StrOr(description, "HealCoins spent"), None, None, now)]
  {
    if BadAmount(amount) then Step(st, Failed(InvalidAmount))
    else if user !in st.wallets || st.wallets[user].balance < amount.value then
      Step(st, Failed(InsufficientBalance))
    else
      var w := st.wallets[user].(balance := st.wallets[user].balance - amount.value, lastUpdated := now);
      var t := Transaction(user, Debit, amount.value, StrOr(description, "HealCoins spent"), None, None, now);
      Step(Store(st.wallets[user := w], st.log + [t]), Success(w.balance))
  }

  /** `!amount || !upiId`: both fields present and truthy. */
  predicate RedemptionFieldsMissing(amount: Option<int>, upiId: Option<string>)
  {
    amount == None || amount.value == 0 || upiId == None || upiId.value == ""
  }

  /** The record a redemption request logs. */
  function RedeemRecord(user: UserId, amount: int, upiId: string, now: int): Transaction
  {
    Transaction(user, Redeem, amount, "Redemption request to UPI: " + upiId, Some("pending"), Some(upiId), now)
  }

  /** POST /api/wallet/redeem: the three checks come in this order, and all of
      them come before any change. */
  function RedemptionStep(st: Store, user: UserId, amount: Option<int>, upiId: Option<string>, now: int)
    : (r: Step<Redemption>)
    ensures r.outcome.Failed? ==> r.store == st
    ensures RedemptionFieldsMissing(amount, upiId) ==> r.outcome == Failed(MissingRedemptionFields)
    ensures !RedemptionFieldsMissing(amount, upiId) && amount.value < 0 ==>
      r.outcome == Failed(NonPositiveAmount)
    ensures !RedemptionFieldsMissing(amount, upiId) && amount.value > 0
            && (user !in st.wallets || st.wallets[user].balance < amount.value) ==>
      r.outcome == Failed(InsufficientWalletBalance)
    ensures r.outcome.Success? <==>
      !RedemptionFieldsMissing(amount, upiId) && amount.value > 0
      && user in st.wallets && st.wallets[user].balance >= amount.value
    ensures r.outcome.Success? ==>
      && r.outcome.value.wallet == st.wallets[user].(balance := st.wallets[user].balance - amount.value, lastUpdated := now)
      && r.outcome.value.wallet.balance >= 0
      && r.store.wallets == st.wallets[user := r.outcome.value.wallet]
      && r.outcome.value.transaction == RedeemRecord(user, amount.value, upiId.value, now)
      && r.outcome.value.transaction.status == Some("pending")
      && r.store.log == st.log + [r.outcome.value.transaction]
  {
    if RedemptionFieldsMissing(amount, upiId) then Step(st, Failed(MissingRedemptionFields))
    else if amount.value <= 0 then Step(st, Failed(NonPositiveAmount))
    else if user !in st.wallets || st.wallets[user].balance < amount.value then
      Step(st, Failed(InsufficientWalletBalance))
    else
      var w := st.wallets[user].(balance := st.wallets[user].balance - amount.value, lastUpdated := now);
      var t := RedeemRecord(user, amount.value, upiId.value, now);
      Step(Store(st.wallets[user := w], st.log + [t]), Success(Redemption(w, t)))
  }

  /** GET /api/wallet/transactions: the user's own records, newest first. */
  function UserTransactions(log: seq<Transaction>, user: UserId): (r: seq<Transaction>)
    ensures forall i :: 0 <= i < |r| ==> r[i].userId == user
    ensures forall i, j :: 0 <= i < j < |r| ==> r[i].createdAt >= r[j].createdAt
    ensures multiset(r) == multiset(Filter(log, (t: Transaction) => t.userId == user))
  {
    var mine := Filter(log, (t: Transaction) => t.userId == user);
    var r := SortDesc(mine, (t: Transaction) => t.createdAt);
    forall i | 0 <= i < |r| ensures r[i].userId == user {
      assert r[i] in multiset(mine);
    }
    r
  }

  // --------------------------------------------------------------- invariant

  /** The signed effect of one record on `user`'s balance. */
  function Effect(t: Transaction, user: UserId): int
  {
    if t.userId != user then 0
    else match t.kind
      case Credit => t.amount
      case Debit => -t.amount
      case Redeem => -t.amount
  }

  /** The net effect of a log on `user`'s balance. */
  function Net(log: seq<Transaction>, user: UserId): int
  {
    if log == [] then 0 else Net(log[..|log| - 1], user) + Effect(log[|log| - 1], user)
  }

  /** Sum of the amounts of `user`'s records of one kind. */
  function Total(log: seq<Transaction>, user: UserId, kind: TxnType): int
  {
    if log == [] then 0
    else
      var t := log[|log| - 1];
      Total(log[..|log| - 1], user, kind) + (if t.userId == user && t.kind == kind then t.amount else 0)
  }

  /** The net effect is credits minus debits minus redemptions. */
  lemma {:induction false} NetIsCreditsMinusSpends(log: seq<Transaction>, user: UserId)
    ensures Net(log, user) == Total(log, user, Credit) - Total(log, user, Debit) - Total(log, user, Redeem)
  {
    if log != [] {
      NetIsCreditsMinusSpends(log[..|log| - 1], user);
    }
  }

  lemma NetAppend(log: seq<Transaction>, t: Transaction, user: UserId)
    ensures Net(log + [t], user) == Net(log, user) + Effect(t, user)
  {
    assert (log + [t])[..|log + [t]| - 1] == log;
  }

  lemma {:induction false} NetWithoutRecords(log: seq<Transaction>, user: UserId)
    requires forall i :: 0 <= i < |log| ==> log[i].userId != user
    ensures Net(log, user) == 0
  {
    if log != [] {
      NetWithoutRecords(log[..|log| - 1], user);
    }
  }

  /** Every wallet is keyed by its owner, its balance is that owner's net
      effect of the log and is never negative, and every record has a positive
      amount and belongs to a user who has a wallet. */
  ghost predicate Consistent(st: Store)
  {
    && (forall u :: u in st.wallets ==>
          st.wallets[u].userId == u && st.wallets[u].balance == Net(st.log, u) && st.wallets[u].balance >= 0)
    && (forall i :: 0 <= i < |st.log| ==> st.log[i].amount > 0 && st.log[i].userId in st.wallets)
  }

  lemma EmptyConsistent()
    ensures Consistent(EmptyStore)
  {
  }

  /** Appending one record for `user` and setting `user`'s wallet to the
      new net effect keeps the invariant. */
  lemma AppendKeepsConsistent(st: Store, user: UserId, w: Wallet, t: Transaction)
    requires Consistent(st)
    requires t.userId == user && t.amount > 0 && w.userId == user
    requires w.balance == BalanceOf(st, user) + Effect(t, user) >= 0
    ensures Consistent(Store(st.wallets[user := w], st.log + [t]))
  {
    var st' := Store(st.wallets[user := w], st.log + [t]);
    forall u | u in st'.wallets
      ensures st'.wallets[u].balance == Net(st'.log, u)
    {
      NetAppend(st.log, t, u);
      if u == user && user !in st.wallets {
        NetWithoutRecords(st.log, user);
      }
    }
  }

  lemma {:induction false} AddCoinsKeepsConsistent(st: Store, user: UserId, amount: Option<int>,
                                                    description: Option<string>, now: int)
    requires Consistent(st)
    ensures Consistent(AddCoinsStep(st, user, amount, description, now).store)
  {
    var r := AddCoinsStep(st, user, amount, description, now);
    if r.outcome.Success? {
      AppendKeepsConsistent(st, user, r.store.wallets[user], r.store.log[|st.log|]);
      assert r.store.log == st.log + [r.store.log[|st.log|]];
    }
  }

  lemma {:induction false} SpendCoinsKeepsConsistent(st: Store, user: UserId, amount: Option<int>,
                                                      description: Option<string>, now: int)
    requires Consistent(st)
    ensures Consistent(SpendCoinsStep(st, user, amount, description, now).store)
  {
    var r := SpendCoinsStep(st, user, amount, description, now);
    if r.outcome.Success? {
      AppendKeepsConsistent(st, user, r.store.wallets[user], r.store.log[|st.log|]);
      assert r.store.log == st.log + [r.store.log[|st.log|]];
    }
  }

  lemma {:induction false} RedemptionKeepsConsistent(st: Store, user: UserId, amount: Option<int>,
                                                      upiId: Option<string>, now: int)
    requires Consistent(st)
    ensures Consistent(RedemptionStep(st, user, amount, upiId, now).store)
  {
    var r := RedemptionStep(st, user, amount, upiId, now);
    if r.outcome.Success? {
      AppendKeepsConsistent(st, user, r.outcome.value.wallet, r.outcome.value.transaction);
    }
  }

  /** A mutating request, as a client issues it. */
  datatype Request =
    | AddReq(user: UserId, amount: Option<int>, description: Option<string>, at: int)
    | SpendReq(user: UserId, amount: Option<int>, description: Option<string>, at: int)
    | RedeemReq(user: UserId, amount: Option<int>, upiId: Option<string>, at: int)

  function Apply(st: Store, q: Request): Store
  {
    match q
    case AddReq(u, a, d, at) => AddCoinsStep(st, u, a, d, at).store
    case SpendReq(u, a, d, at) => SpendCoinsStep(st, u, a, d, at).store
    case RedeemReq(u, a, upi, at) => RedemptionStep(st, u, a, upi, at).store
  }

  /** The stores after handling `qs` one after another. */
  function Run(st: Store, qs: seq<Request>): Store
    decreases |qs|
  {
    if qs == [] then st else Run(Apply(st, qs[0]), qs[1..])
  }

  /** Over any sequential run of requests starting from empty stores, every
      balance equals that user's credits minus debits minus redemptions and is
      never negative. */
  lemma {:induction false} RunKeepsBalances(qs: seq<Request>, user: UserId)
    ensures var st := Run(EmptyStore, qs);
      && Consistent(st)
      && (user in st.wallets ==>
            st.wallets[user].balance
              == Total(st.log, user, Credit) - Total(st.log, user, Debit) - Total(st.log, user, Redeem)
            >= 0)
  {
    EmptyConsistent();
    RunKeepsConsistent(EmptyStore, qs);
    NetIsCreditsMinusSpends(Run(EmptyStore, qs).log, user);
  }

  lemma {:induction false} RunKeepsConsistent(st: Store, qs: seq<Request>)
    requires Consistent(st)
    ensures Consistent(Run(st, qs))
    decreases |qs|
  {
    if qs != [] {
      match qs[0] {
        case AddReq(u, a, d, at) => AddCoinsKeepsConsistent(st, u, a, d, at);
        case SpendReq(u, a, d, at) => SpendCoinsKeepsConsistent(st, u, a, d, at);
        case RedeemReq(u, a, upi, at) => RedemptionKeepsConsistent(st, u, a, upi, at);
      }
      RunKeepsConsistent(Apply(st, qs[0]), qs[1..]);
    }
  }

  /** The request a client sends with amount 0 and no UPI id is refused for the
      missing fields, not for the amount: the first check wins. */
  lemma ZeroAmountIsReportedAsMissing(st: Store, user: UserId, upiId: Option<string>, now: int)
    ensures RedemptionStep(st, user, Some(0), upiId, now).outcome == Failed(MissingRedemptionFields)
  {
  }

  // ------------------------------------------------------------------ ledger

  /** The ledger as the controller drives it: each request reads the user's
      wallet, creates or updates it in place, and appends to the log. */
  class Ledger {
    var wallets: map<UserId, Wallet>
    var log: seq<Transaction>

    function State(): Store
      reads this
    {
      Store(wallets, log)
    }

    ghost predicate Valid()
      reads this
    {
      Consistent(State())
    }

    constructor ()
      ensures State() == EmptyStore && Valid()
    {
      wallets := map[];
      log := [];
    }

    method GetWallet(user: UserId) returns (r: Outcome<Wallet>)
      ensures r == LookupWallet(State(), user)
    {
      if user !in wallets {
        return Failed(WalletNotFound);
      }
      r := Success(wallets[user]);
    }

    method AddCoins(user: UserId, amount: Option<int>, description: Option<string>, now: int)
      returns (r: Outcome<int>)
      requires Valid()
      modifies this
      ensures Valid()
      ensures Step(State(), r) == AddCoinsStep(old(State()), user, amount, description, now)
    {
      ghost var st := State();
      if amount == None || amount.value <= 0 {
        return Failed(InvalidAmount);
      }
      ghost var t := AddCoinsStep(st, user, amount, description, now);
      if user !in wallets {
        wallets := wallets[user := Wallet(user, 0, now)];
      }
      ghost var created := if user in st.wallets then st.wallets[user] else Wallet(user, 0, now);
      assert wallets[user] == created;
      var w := wallets[user];
      w := w.(balance := w.balance + amount.value);
      w := w.(lastUpdated := now);
      assert w == created.(balance := created.balance + amount.value, lastUpdated := now);
      wallets := wallets[user := w];
      assert wallets == st.wallets[user := w];
      assert wallets == t.store.wallets;
      var desc := if description.Some? && description.value != "" then description.value else "HealCoins added";
      log := log + [Transaction(user, Credit, amount.value, desc, None, None, now)];
      r := Success(w.balance);
      assert log == t.store.log && r == t.outcome;
      assert State() == t.store;
      AddCoinsKeepsConsistent(st, user, amount, description, now);
    }

    method SpendCoins(user: UserId, amount: Option<int>, description: Option<string>, now: int)
      returns (r: Outcome<int>)
      requires Valid()
      modifies this
      ensures Valid()
      ensures Step(State(), r) == SpendCoinsStep(old(State()), user, amount, description, now)
    {
      ghost var st := State();
      if amount == None || amount.value <= 0 {
        return Failed(InvalidAmount);
      }
      if user !in wallets || wallets[user].balance < amount.value {
        return Failed(InsufficientBalance);
      }
      ghost var t := SpendCoinsStep(st, user, amount, description, now);
      var w := wallets[user];
      w := w.(balance := w.balance - amount.value);
      w := w.(lastUpdated := now);
      wallets := wallets[user := w];
      assert wallets == t.store.wallets;
      var desc := if description.Some? && description.value != "" then description.value else "HealCoins spent";
      log := log + [Transaction(user, Debit, amount.value, desc, None, None, now)];
      r := Success(w.balance);
      assert log == t.store.log && r == t.outcome;
      SpendCoinsKeepsConsistent(st, user, amount, description, now);
    }

    method PostRedemptionRequest(user: UserId, amount: Option<int>, upiId: Option<string>, now: int)
      returns (r: Outcome<Redemption>)
      requires Valid()
      modifies this
      ensures Valid()
      ensures Step(State(), r) == RedemptionStep(old(State()), user, amount, upiId, now)
    {
      ghost var st := State();
      if amount == None || amount.value == 0 || upiId == None || upiId.value == "" {
        return Failed(MissingRedemptionFields);
      }
      if amount.value <= 0 {
        return Failed(NonPositiveAmount);
      }
      if user !in wallets || wallets[user].balance < amount.value {
        return Failed(InsufficientWalletBalance);
      }
      ghost var t := RedemptionStep(st, user, amount, upiId, now);
      var w := wallets[user];
      w := w.(balance := w.balance - amount.value);
      w := w.(lastUpdated := now);
      wallets := wallets[user := w];
      assert wallets == t.store.wallets;
      var txn := Transaction(user, Redeem, amount.value, "Redemption request to UPI: " + upiId.value,
                             Some("pending"), Some(upiId.value), now);
      log := log + [txn];
      r := Success(Redemption(w, txn));
      assert log == t.store.log && r == t.outcome;
      RedemptionKeepsConsistent(st, user, amount, upiId, now);
    }

    /** GET /api/wallet/transactions for `user`. */
    function Transactions(user: UserId): (r: seq<Transaction>)
      reads this
      ensures forall i :: 0 <= i < |r| ==> r[i].userId == user
      ensures forall i, j :: 0 <= i < j < |r| ==> r[i].createdAt >= r[j].createdAt
      ensures forall t :: t in r <==> t in log && t.userId == user
    {
      var r := UserTransactions(log, user);
      forall t ensures t in r <==> t in log && t.userId == user {
        FilterMultiset(log, (t: Transaction) => t.userId == user, t);
        assert t in r <==> t in multiset(r);
        assert t in log <==> t in multiset(log);
      }
      r
    }
  }
}
