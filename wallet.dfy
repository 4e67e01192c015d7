/** The wallet service: balance queries, the paginated transaction history, and the
    balance mutator (`addCredit` / `debitAmount` and their money/coins wrappers).

    Each mutator is a method over the `Database` proved against a spec function over
    `State`; the properties the service promises are lemmas about those spec functions. */
module Wallet {
  import opened Common
  import opened Collections
  import opened Ledger

  /** `{ success: true, amount, currency }` */
  datatype Receipt = Receipt(amount: int, currency: Currency)

  datatype WalletBalance = WalletBalance(money: int, coins: int, userId: UserId)

  const AmountNotPositive := "Amount must be positive"
  const UserNotFound := "User not found"

  function CurrencyName(c: Currency): string {
    match c
    case Money => "money"
    case Coins => "coins"
  }

  function Insufficient(c: Currency): Error {
    BadRequest("Insufficient " + CurrencyName(c) + " balance")
  }

  // ---------------------------------------------------------------- queries

  function GetBalance(s: State, userId: UserId): (r: Result<WalletBalance>)
    ensures r.Ok? <==> userId in s.users
    ensures r.Err? ==> r.error == NotFound(UserNotFound)
    ensures r.Ok? ==>
              && r.value.userId == userId
              && r.value.money == Balance(s.users[userId], Money)
              && r.value.coins == Balance(s.users[userId], Coins)
  {
    if userId !in s.users then Err(NotFound(UserNotFound))
    else Ok(WalletBalance(s.users[userId].rewardWallet, s.users[userId].coinWallet, userId))
  }

  /** `getMoneyBalance`: the money part of `getBalance`, failing exactly when it fails. */
  function GetMoneyBalance(s: State, userId: UserId): (r: Result<int>)
    ensures r.Err? <==> GetBalance(s, userId).Err?
    ensures r.Err? ==> r.error == GetBalance(s, userId).error
    ensures r.Ok? ==> r.value == GetBalance(s, userId).value.money
  {
    if userId !in s.users then Err(NotFound(UserNotFound)) else Ok(s.users[userId].rewardWallet)
  }

  /** `getCoinBalance`: the coins part of `getBalance`, failing exactly when it fails. */
  function GetCoinBalance(s: State, userId: UserId): (r: Result<int>)
    ensures r.Err? <==> GetBalance(s, userId).Err?
    ensures r.Err? ==> r.error == GetBalance(s, userId).error
    ensures r.Ok? ==> r.value == GetBalance(s, userId).value.coins
  {
    if userId !in s.users then Err(NotFound(UserNotFound)) else Ok(s.users[userId].coinWallet)
  }

  datatype TransactionQuery = TransactionQuery(
    page: Option<int>,
    limit: Option<int>,
    kind: Option<Direction>,
    currency: Option<Currency>)

  datatype Pagination = Pagination(page: int, limit: int, total: int, pages: int)
  datatype TransactionHistory = TransactionHistory(transactions: seq<LedgerEntry>, pagination: Pagination)

  /** The query filter: the user's entries, narrowed by type and currency only when given. */
  predicate Selected(e: LedgerEntry, userId: UserId, q: TransactionQuery) {
    && e.userId == userId
    && (q.kind.Some? ==> e.kind == q.kind.value)
    && (q.currency.Some? ==> e.currency == q.currency.value)
  }

  /** The entries matching the query, in creation order. */
  function Matching(entries: seq<LedgerEntry>, userId: UserId, q: TransactionQuery): seq<LedgerEntry> {
    Filter(entries, e => Selected(e, userId, q))
  }

  /** The entries matching the query, newest first (creation order reversed). */
  function NewestFirst(entries: seq<LedgerEntry>, userId: UserId, q: TransactionQuery): seq<LedgerEntry> {
    Reverse(Matching(entries, userId, q))
  }

  /** `Math.ceil(n / d)` for a non-negative count and a positive divisor. */
  function CeilDiv(n: nat, d: int): (r: nat)
    requires d > 0
    ensures n <= r * d
    ensures r == 0 || (r - 1) * d < n
  {
    var q := (n + d - 1) / d;
    assert n + d - 1 == q * d + (n + d - 1) % d;
    q
  }

  predicate ValidQuery(q: TransactionQuery) {
    (q.page.Some? ==> q.page.value >= 1) && (q.limit.Some? ==> q.limit.value >= 1)
  }

  function PageOf(q: TransactionQuery): int { if q.page.Some? then q.page.value else 1 }
  function LimitOf(q: TransactionQuery): int { if q.limit.Some? then q.limit.value else 20 }

  /** `(page - 1) * limit` */
  function SkipOf(q: TransactionQuery): nat
    requires ValidQuery(q)
  {
    (PageOf(q) - 1) * LimitOf(q)
  }

  /** `.skip(skip).limit(limit)` */
  function Window<T>(all: seq<T>, skip: nat, limit: nat): (w: seq<T>)
    ensures |w| <= limit
    ensures skip >= |all| ==> w == []
    ensures skip < |all| ==> w == all[skip..if skip + limit <= |all| then skip + limit else |all|]
    ensures forall k :: 0 <= k < |w| ==> w[k] == all[skip + k]
  {
    if skip >= |all| then [] else all[skip..if skip + limit <= |all| then skip + limit else |all|]
  }

  /** `getTransactions`: page `page` (default 1) of `limit` entries (default 20) of the
      matching entries, newest first, with the total count and the number of pages. */
  function GetTransactions(s: State, userId: UserId, q: TransactionQuery): (r: TransactionHistory)
    requires ValidQuery(q)
    ensures r.pagination.page == PageOf(q) && r.pagination.limit == LimitOf(q)
    ensures r.pagination.total == |Matching(s.transactions, userId, q)|
    ensures r.pagination.total <= r.pagination.pages * r.pagination.limit
    ensures r.pagination.pages == 0 || (r.pagination.pages - 1) * r.pagination.limit < r.pagination.total
    ensures |r.transactions| <= r.pagination.limit
    ensures forall k :: 0 <= k < |r.transactions| ==> Selected(r.transactions[k], userId, q)
    ensures r.transactions == Window(NewestFirst(s.transactions, userId, q), SkipOf(q), LimitOf(q))
  {
    var total := |Matching(s.transactions, userId, q)|;
    var page := Window(NewestFirst(s.transactions, userId, q), SkipOf(q), LimitOf(q));
    PageSelected(s.transactions, userId, q, SkipOf(q), LimitOf(q));
    TransactionHistory(page, Pagination(PageOf(q), LimitOf(q), total, CeilDiv(total, LimitOf(q))))
  }

  /** Every entry of a window of the newest-first list passes the query's filters. */
  lemma PageSelected(entries: seq<LedgerEntry>, userId: UserId, q: TransactionQuery, skip: nat, limit: nat)
    ensures var w := Window(NewestFirst(entries, userId, q), skip, limit);
            forall k :: 0 <= k < |w| ==> Selected(w[k], userId, q)
  {
    NewestFirstSelected(entries, userId, q);
  }

  /** Every entry of the newest-first list passes the query's filters. */
  lemma NewestFirstSelected(entries: seq<LedgerEntry>, userId: UserId, q: TransactionQuery)
    ensures forall k :: 0 <= k < |NewestFirst(entries, userId, q)| ==> Selected(NewestFirst(entries, userId, q)[k], userId, q)
  {
    var m := Matching(entries, userId, q);
    var all := NewestFirst(entries, userId, q);
    forall k | 0 <= k < |all|
      ensures Selected(all[k], userId, q)
    {
      assert all[k] == m[|m| - 1 - k];
    }
  }

  // ---------------------------------------------------------------- mutator, as functions

  function EntryOf(userId: UserId, kind: Direction, amount: int, currency: Currency, source: string, meta: Option<Meta>): LedgerEntry {
    LedgerEntry(userId, kind, amount, currency, source, meta)
  }

  /** The writes of a credit: the transaction record, then `$inc` of the balance field
      (a user that does not exist is not an error: the update simply matches nothing). */
  function CreditBody(s: State, env: Env, e: LedgerEntry): (r: Run)
    ensures r.error.None? <==> InsertTransaction(e) !in env.failing && IncBalance(e.userId, e.currency, e.amount) !in env.failing
    ensures r.error.Some? ==> r.error == Some(StoreError(OtherFault))
    ensures r.state.referrals == s.referrals
  {
    ThenWrite(RunWrite(s, env, InsertTransaction(e)), env, IncBalance(e.userId, e.currency, e.amount))
  }

  /** The writes of a debit: the transaction record, then the guarded decrement; a guarded
      update that matches nothing is reported as insufficient balance. */
  function DebitBody(s: State, env: Env, e: LedgerEntry): (r: Run)
    ensures r.error.Some? ==> r.error.value in {StoreError(OtherFault), Insufficient(e.currency)}
    ensures r.state.referrals == s.referrals
  {
    var r := ThenWrite(RunWrite(s, env, InsertTransaction(e)), env, DecrementIfCovered(e.userId, e.currency, e.amount));
    if r.error.None? && !r.matched then Run(r.state, Some(Insufficient(e.currency)), false) else r
  }

  /** `addCredit`: inside the caller's session the writes join it (a failure is left for the
      caller's transaction to undo); otherwise they run in an own transaction, falling back to
      running them one by one on a store without transactions. */
  function CreditOutcome(s: State, env: Env, userId: UserId, amount: int, currency: Currency,
                         source: string, meta: Option<Meta>, inSession: bool): (o: Outcome<Receipt>)
    ensures amount <= 0 ==> o == Outcome(s, Err(BadRequest(AmountNotPositive)))
    ensures o.result.Ok? ==> o.result.value == Receipt(amount, currency)
  {
    if amount <= 0 then Outcome(s, Err(BadRequest(AmountNotPositive)))
    else
      var body := CreditBody(s, env, EntryOf(userId, Credit, amount, currency, source, meta));
      if inSession then Conclude(body, Receipt(amount, currency))
      else WithFallback(s, env, body, body, Receipt(amount, currency))
  }

  /** `debitAmount`: checks amount, user and balance before any write, then runs the debit
      writes in the same three modes as `addCredit`. */
  function DebitOutcome(s: State, env: Env, userId: UserId, amount: int, currency: Currency,
                        source: string, meta: Option<Meta>, inSession: bool): (o: Outcome<Receipt>)
    ensures amount <= 0 ==> o == Outcome(s, Err(BadRequest(AmountNotPositive)))
    ensures amount > 0 && userId !in s.users ==> o == Outcome(s, Err(NotFound(UserNotFound)))
    ensures amount > 0 && userId in s.users && Balance(s.users[userId], currency) < amount ==>
              o == Outcome(s, Err(Insufficient(currency)))
    ensures o.result.Ok? ==> o.result.value == Receipt(amount, currency)
  {
    if amount <= 0 then Outcome(s, Err(BadRequest(AmountNotPositive)))
    else if userId !in s.users then Outcome(s, Err(NotFound(UserNotFound)))
    else if Balance(s.users[userId], currency) < amount then Outcome(s, Err(Insufficient(currency)))
    else
      var body := DebitBody(s, env, EntryOf(userId, Debit, amount, currency, source, meta));
      if inSession then Conclude(body, Receipt(amount, currency))
      else WithFallback(s, env, body, body, Receipt(amount, currency))
  }

  // ---------------------------------------------------------------- mutator, as methods

  method WriteCredit(db: Database, env: Env, e: LedgerEntry) returns (err: Option<Error>)
    modifies db
    ensures db.Snapshot() == CreditBody(old(db.Snapshot()), env, e).state
    ensures err == CreditBody(old(db.Snapshot()), env, e).error
  {
    var matched;
    err, matched := db.Execute(env, InsertTransaction(e));
    if err.Some? {
      return;
    }
    err, matched := db.Execute(env, IncBalance(e.userId, e.currency, e.amount));
  }

  method WriteDebit(db: Database, env: Env, e: LedgerEntry) returns (err: Option<Error>)
    modifies db
    ensures db.Snapshot() == DebitBody(old(db.Snapshot()), env, e).state
    ensures err == DebitBody(old(db.Snapshot()), env, e).error
  {
    var matched;
    err, matched := db.Execute(env, InsertTransaction(e));
    if err.Some? {
      return;
    }
    err, matched := db.Execute(env, DecrementIfCovered(e.userId, e.currency, e.amount));
    if err.None? && !matched {
      err := Some(Insufficient(e.currency));
    }
  }

  method AddCredit(db: Database, env: Env, userId: UserId, amount: int, currency: Currency,
                   source: string, meta: Option<Meta>, inSession: bool) returns (r: Result<Receipt>)
    modifies db
    ensures db.Snapshot() == CreditOutcome(old(db.Snapshot()), env, userId, amount, currency, source, meta, inSession).state
    ensures r == CreditOutcome(old(db.Snapshot()), env, userId, amount, currency, source, meta, inSession).result
  {
    if amount <= 0 {
      return Err(BadRequest(AmountNotPositive));
    }
    var entry := EntryOf(userId, Credit, amount, currency, source, meta);
    var receipt := Receipt(amount, currency);
    if inSession {
      var err := WriteCredit(db, env, entry);
      return if err.Some? then Err(err.value) else Ok(receipt);
    }
    var snapshot, err := db.StartTransaction(env);
    if err.None? {
      err := WriteCredit(db, env, entry);
      if err.Some? {
        db.Abort(snapshot);
      }
    }
    if err.None? {
      return Ok(receipt);
    }
    if IsTransactionsUnsupported(err.value) {
      // standalone store: the same writes, one after the other, without a transaction
      err := WriteCredit(db, env, entry);
      return if err.Some? then Err(err.value) else Ok(receipt);
    }
    r := Err(err.value);
  }

  method DebitAmount(db: Database, env: Env, userId: UserId, amount: int, currency: Currency,
                     source: string, meta: Option<Meta>, inSession: bool) returns (r: Result<Receipt>)
    modifies db
    ensures db.Snapshot() == DebitOutcome(old(db.Snapshot()), env, userId, amount, currency, source, meta, inSession).state
    ensures r == DebitOutcome(old(db.Snapshot()), env, userId, amount, currency, source, meta, inSession).result
  {
    if amount <= 0 {
      return Err(BadRequest(AmountNotPositive));
    }
    if userId !in db.users {
      return Err(NotFound(UserNotFound));
    }
    if Balance(db.users[userId], currency) < amount {
      return Err(Insufficient(currency));
    }
    var entry := EntryOf(userId, Debit, amount, currency, source, meta);
    var receipt := Receipt(amount, currency);
    if inSession {
      var err := WriteDebit(db, env, entry);
      return if err.Some? then Err(err.value) else Ok(receipt);
    }
    var snapshot, err := db.StartTransaction(env);
    if err.None? {
      err := WriteDebit(db, env, entry);
      if err.Some? {
        db.Abort(snapshot);
      }
    }
    if err.None? {
      return Ok(receipt);
    }
    if IsTransactionsUnsupported(err.value) {
      // standalone store: the same writes, one after the other, without a transaction
      err := WriteDebit(db, env, entry);
      return if err.Some? then Err(err.value) else Ok(receipt);
    }
    r := Err(err.value);
  }

  method AddMoney(db: Database, env: Env, userId: UserId, amount: int, source: string,
                  meta: Option<Meta>, inSession: bool) returns (r: Result<Receipt>)
    modifies db
    ensures db.Snapshot() == CreditOutcome(old(db.Snapshot()), env, userId, amount, Money, source, meta, inSession).state
    ensures r == CreditOutcome(old(db.Snapshot()), env, userId, amount, Money, source, meta, inSession).result
  {
    r := AddCredit(db, env, userId, amount, Money, source, meta, inSession);
  }

  method DebitMoney(db: Database, env: Env, userId: UserId, amount: int, source: string,
                    meta: Option<Meta>, inSession: bool) returns (r: Result<Receipt>)
    modifies db
    ensures db.Snapshot() == DebitOutcome(old(db.Snapshot()), env, userId, amount, Money, source, meta, inSession).state
    ensures r == DebitOutcome(old(db.Snapshot()), env, userId, amount, Money, source, meta, inSession).result
  {
    r := DebitAmount(db, env, userId, amount, Money, source, meta, inSession);
  }

  method AddCoins(db: Database, env: Env, userId: UserId, amount: int, source: string,
                  meta: Option<Meta>, inSession: bool) returns (r: Result<Receipt>)
    modifies db
    ensures db.Snapshot() == CreditOutcome(old(db.Snapshot()), env, userId, amount, Coins, source, meta, inSession).state
    ensures r == CreditOutcome(old(db.Snapshot()), env, userId, amount, Coins, source, meta, inSession).result
  {
    r := AddCredit(db, env, userId, amount, Coins, source, meta, inSession);
  }

  method DebitCoins(db: Database, env: Env, userId: UserId, amount: int, source: string,
                    meta: Option<Meta>, inSession: bool) returns (r: Result<Receipt>)
    modifies db
    ensures db.Snapshot() == DebitOutcome(old(db.Snapshot()), env, userId, amount, Coins, source, meta, inSession).state
    ensures r == DebitOutcome(old(db.Snapshot()), env, userId, amount, Coins, source, meta, inSession).result
  {
    r := DebitAmount(db, env, userId, amount, Coins, source, meta, inSession);
  }

  // ---------------------------------------------------------------- properties

  function Other(c: Currency): Currency {
    match c
    case Money => Coins
    case Coins => Money
  }

  /** `after` differs from `before` only in the c balance of user u, which moved by delta;
      nothing changes when u is not a user. */
  predicate BalanceMoved(before: map<UserId, User>, after: map<UserId, User>, u: UserId, c: Currency, delta: int) {
    && after.Keys == before.Keys
    && (forall v :: v in before && v != u ==> after[v] == before[v])
    && (u in before ==> after[u] == WithBalance(before[u], c, Balance(before[u], c) + delta))
  }

  /** The store refuses neither write of this credit. */
  predicate CreditGoesThrough(env: Env, e: LedgerEntry) {
    InsertTransaction(e) !in env.failing && IncBalance(e.userId, e.currency, e.amount) !in env.failing
  }

  /** The store refuses neither write of this debit. */
  predicate DebitGoesThrough(env: Env, e: LedgerEntry) {
    InsertTransaction(e) !in env.failing && DecrementIfCovered(e.userId, e.currency, e.amount) !in env.failing
  }

  /** Credits and debits of a non-positive amount are rejected before anything is written. */
  lemma NonPositiveAmountRejected(s: State, env: Env, userId: UserId, amount: int, currency: Currency,
                                  source: string, meta: Option<Meta>, inSession: bool)
    requires amount <= 0
    ensures CreditOutcome(s, env, userId, amount, currency, source, meta, inSession) == Outcome(s, Err(BadRequest(AmountNotPositive)))
    ensures DebitOutcome(s, env, userId, amount, currency, source, meta, inSession) == Outcome(s, Err(BadRequest(AmountNotPositive)))
  {
  }

  /** A credit succeeds, in every mode, exactly when the store takes both of its writes; it then
      appends exactly one entry and raises exactly the balance field the currency selects. */
  lemma CreditEffect(s: State, env: Env, userId: UserId, amount: int, currency: Currency,
                     source: string, meta: Option<Meta>, inSession: bool)
    requires amount > 0
    ensures var o := CreditOutcome(s, env, userId, amount, currency, source, meta, inSession);
            var e := EntryOf(userId, Credit, amount, currency, source, meta);
            && (o.result.Ok? <==> CreditGoesThrough(env, e))
            && (o.result.Ok? ==>
                  && o.result.value == Receipt(amount, currency)
                  && o.state.transactions == s.transactions + [e]
                  && o.state.referrals == s.referrals
                  && BalanceMoved(s.users, o.state.users, userId, currency, amount))
  {
  }

  /** A debit that passes the amount, user and balance checks succeeds, in every mode, exactly
      when the store takes both of its writes; it then appends exactly one entry and lowers
      exactly the balance field the currency selects. */
  lemma DebitEffect(s: State, env: Env, userId: UserId, amount: int, currency: Currency,
                    source: string, meta: Option<Meta>, inSession: bool)
    requires amount > 0 && userId in s.users && Balance(s.users[userId], currency) >= amount
    ensures var o := DebitOutcome(s, env, userId, amount, currency, source, meta, inSession);
            var e := EntryOf(userId, Debit, amount, currency, source, meta);
            && (o.result.Ok? <==> DebitGoesThrough(env, e))
            && (o.result.Ok? ==>
                  && o.result.value == Receipt(amount, currency)
                  && o.state.transactions == s.transactions + [e]
                  && o.state.referrals == s.referrals
                  && BalanceMoved(s.users, o.state.users, userId, currency, -amount))
  {
  }

  /** A debit for a missing user fails NotFound, one exceeding the balance fails with
      insufficient balance; neither writes anything. */
  lemma DebitRejected(s: State, env: Env, userId: UserId, amount: int, currency: Currency,
                      source: string, meta: Option<Meta>, inSession: bool)
    requires amount > 0
    requires userId !in s.users || Balance(s.users[userId], currency) < amount
    ensures var o := DebitOutcome(s, env, userId, amount, currency, source, meta, inSession);
            && o.state == s
            && o.result == Err(if userId !in s.users then NotFound(UserNotFound) else Insufficient(currency))
  {
  }

  /** The guarded decrement never lowers a balance below the amount: when it matches nothing
      the debit reports insufficient balance, not success, and no balance changes. */
  lemma GuardedDecrementReportsInsufficient(s: State, env: Env, e: LedgerEntry)
    requires DebitGoesThrough(env, e)
    requires e.userId !in s.users || Balance(s.users[e.userId], e.currency) < e.amount
    ensures DebitBody(s, env, e).error == Some(Insufficient(e.currency))
    ensures DebitBody(s, env, e).state.users == s.users
  {
  }

  /** Without a caller session on a store with transactions, a failed credit or debit leaves
      the store exactly as it was: no entry without its balance update, or the reverse. */
  lemma OwnTransactionIsAtomic(s: State, env: Env, userId: UserId, amount: int, currency: Currency,
                               source: string, meta: Option<Meta>)
    requires env.supportsTransactions
    ensures var o := CreditOutcome(s, env, userId, amount, currency, source, meta, false);
            o.result.Err? ==> o.state == s
    ensures var o := DebitOutcome(s, env, userId, amount, currency, source, meta, false);
            o.result.Err? ==> o.state == s
  {
  }

  /** On a store without transactions the very same writes run one after the other. */
  lemma StandaloneStoreRunsWritesInOrder(s: State, env: Env, userId: UserId, amount: int, currency: Currency,
                                         source: string, meta: Option<Meta>)
    requires !env.supportsTransactions && amount > 0
    ensures CreditOutcome(s, env, userId, amount, currency, source, meta, false)
         == Conclude(CreditBody(s, env, EntryOf(userId, Credit, amount, currency, source, meta)), Receipt(amount, currency))
    ensures userId in s.users && Balance(s.users[userId], currency) >= amount ==>
              DebitOutcome(s, env, userId, amount, currency, source, meta, false)
              == Conclude(DebitBody(s, env, EntryOf(userId, Debit, amount, currency, source, meta)), Receipt(amount, currency))
  {
  }

  /** The risk the fallback accepts: when the balance update fails after the entry was
      written, the entry stays and the balance does not move. */
  lemma FallbackLeavesEntryWithoutBalance(s: State, env: Env, userId: UserId, amount: int, currency: Currency,
                                          source: string, meta: Option<Meta>)
    requires !env.supportsTransactions && amount > 0
    requires InsertTransaction(EntryOf(userId, Credit, amount, currency, source, meta)) !in env.failing
    requires IncBalance(userId, currency, amount) in env.failing
    ensures var o := CreditOutcome(s, env, userId, amount, currency, source, meta, false);
            && o.result == Err(StoreError(OtherFault))
            && o.state.transactions == s.transactions + [EntryOf(userId, Credit, amount, currency, source, meta)]
            && o.state.users == s.users
  {
  }

  /** The "transactions unsupported" signal is handled inside: no credit or debit throws it. */
  lemma UnsupportedSignalNeverLeaks(s: State, env: Env, userId: UserId, amount: int, currency: Currency,
                                    source: string, meta: Option<Meta>, inSession: bool)
    ensures CreditOutcome(s, env, userId, amount, currency, source, meta, inSession).result != Err(StoreError(TransactionsUnsupported))
    ensures DebitOutcome(s, env, userId, amount, currency, source, meta, inSession).result != Err(StoreError(TransactionsUnsupported))
  {
  }

  /** Any other store error is rethrown as it is: a credit or a debit past its checks whose
      writes the store refuses fails with that store error in every mode, and its own
      transaction leaves the store as it was. */
  lemma StoreFaultRethrown(s: State, env: Env, userId: UserId, amount: int, currency: Currency,
                           source: string, meta: Option<Meta>, inSession: bool)
    requires amount > 0
    ensures var o := CreditOutcome(s, env, userId, amount, currency, source, meta, inSession);
            !CreditGoesThrough(env, EntryOf(userId, Credit, amount, currency, source, meta)) ==>
              && o.result == Err(StoreError(OtherFault))
              && (env.supportsTransactions && !inSession ==> o.state == s)
    ensures var o := DebitOutcome(s, env, userId, amount, currency, source, meta, inSession);
            && userId in s.users && Balance(s.users[userId], currency) >= amount
            && !DebitGoesThrough(env, EntryOf(userId, Debit, amount, currency, source, meta)) ==>
              && o.result == Err(StoreError(OtherFault))
              && (env.supportsTransactions && !inSession ==> o.state == s)
  {
    if !CreditGoesThrough(env, EntryOf(userId, Credit, amount, currency, source, meta)) {
      CreditFaultRethrown(s, env, userId, amount, currency, source, meta, inSession);
    }
    if && userId in s.users && Balance(s.users[userId], currency) >= amount
       && !DebitGoesThrough(env, EntryOf(userId, Debit, amount, currency, source, meta)) {
      DebitFaultRethrown(s, env, userId, amount, currency, source, meta, inSession);
    }
  }

  lemma CreditFaultRethrown(s: State, env: Env, userId: UserId, amount: int, currency: Currency,
                            source: string, meta: Option<Meta>, inSession: bool)
    requires amount > 0
    requires !CreditGoesThrough(env, EntryOf(userId, Credit, amount, currency, source, meta))
    ensures var o := CreditOutcome(s, env, userId, amount, currency, source, meta, inSession);
            && o.result == Err(StoreError(OtherFault))
            && (env.supportsTransactions && !inSession ==> o.state == s)
  {
    var body := CreditBody(s, env, EntryOf(userId, Credit, amount, currency, source, meta));
    assert body.error == Some(StoreError(OtherFault));
  }

  lemma DebitFaultRethrown(s: State, env: Env, userId: UserId, amount: int, currency: Currency,
                           source: string, meta: Option<Meta>, inSession: bool)
    requires amount > 0 && userId in s.users && Balance(s.users[userId], currency) >= amount
    requires !DebitGoesThrough(env, EntryOf(userId, Debit, amount, currency, source, meta))
    ensures var o := DebitOutcome(s, env, userId, amount, currency, source, meta, inSession);
            && o.result == Err(StoreError(OtherFault))
            && (env.supportsTransactions && !inSession ==> o.state == s)
  {
    var e := EntryOf(userId, Debit, amount, currency, source, meta);
    var body := DebitBody(s, env, e);
    assert body.error == Some(StoreError(OtherFault));
  }

  /** No credit or debit, in any mode and whatever fails, makes a balance negative. */
  lemma BalancesStayNonNegative(s: State, env: Env, userId: UserId, amount: int, currency: Currency,
                                source: string, meta: Option<Meta>, inSession: bool)
    requires NonNegative(s)
    ensures NonNegative(CreditOutcome(s, env, userId, amount, currency, source, meta, inSession).state)
    ensures NonNegative(DebitOutcome(s, env, userId, amount, currency, source, meta, inSession).state)
  {
    CreditKeepsNonNegative(s, env, userId, amount, currency, source, meta, inSession);
    DebitKeepsNonNegative(s, env, userId, amount, currency, source, meta, inSession);
  }

  lemma CreditKeepsNonNegative(s: State, env: Env, userId: UserId, amount: int, currency: Currency,
                               source: string, meta: Option<Meta>, inSession: bool)
    requires NonNegative(s)
    ensures NonNegative(CreditOutcome(s, env, userId, amount, currency, source, meta, inSession).state)
  {
    var c := CreditOutcome(s, env, userId, amount, currency, source, meta, inSession);
    if amount > 0 {
      CreditEffect(s, env, userId, amount, currency, source, meta, inSession);
      if c.state != s {
        assert c.state.users == s.users || BalanceMoved(s.users, c.state.users, userId, currency, amount);
      }
    }
  }

  lemma DebitKeepsNonNegative(s: State, env: Env, userId: UserId, amount: int, currency: Currency,
                              source: string, meta: Option<Meta>, inSession: bool)
    requires NonNegative(s)
    ensures NonNegative(DebitOutcome(s, env, userId, amount, currency, source, meta, inSession).state)
  {
    var d := DebitOutcome(s, env, userId, amount, currency, source, meta, inSession);
    if amount > 0 && userId in s.users && Balance(s.users[userId], currency) >= amount {
      DebitEffect(s, env, userId, amount, currency, source, meta, inSession);
      assert d.state.users == s.users || BalanceMoved(s.users, d.state.users, userId, currency, -amount);
    }
  }

  /** A credit or debit that succeeds, or that ran in its own transaction, keeps every balance
      equal to its credits minus debits in the ledger. */
  lemma LedgerStaysConsistent(s: State, env: Env, userId: UserId, amount: int, currency: Currency,
                              source: string, meta: Option<Meta>, inSession: bool)
    requires Consistent(s)
    ensures var o := CreditOutcome(s, env, userId, amount, currency, source, meta, inSession);
            o.result.Ok? || (!inSession && env.supportsTransactions) ==> Consistent(o.state)
    ensures var o := DebitOutcome(s, env, userId, amount, currency, source, meta, inSession);
            o.result.Ok? || (!inSession && env.supportsTransactions) ==> Consistent(o.state)
  {
    CreditKeepsConsistent(s, env, userId, amount, currency, source, meta, inSession);
    DebitKeepsConsistent(s, env, userId, amount, currency, source, meta, inSession);
  }

  lemma CreditKeepsConsistent(s: State, env: Env, userId: UserId, amount: int, currency: Currency,
                              source: string, meta: Option<Meta>, inSession: bool)
    requires Consistent(s)
    ensures var o := CreditOutcome(s, env, userId, amount, currency, source, meta, inSession);
            o.result.Ok? || (!inSession && env.supportsTransactions) ==> Consistent(o.state)
  {
    var c := CreditOutcome(s, env, userId, amount, currency, source, meta, inSession);
    if amount > 0 {
      CreditEffect(s, env, userId, amount, currency, source, meta, inSession);
      if c.result.Ok? {
        MoveKeepsConsistent(s, c.state, EntryOf(userId, Credit, amount, currency, source, meta), amount);
      }
    }
  }

  lemma DebitKeepsConsistent(s: State, env: Env, userId: UserId, amount: int, currency: Currency,
                             source: string, meta: Option<Meta>, inSession: bool)
    requires Consistent(s)
    ensures var o := DebitOutcome(s, env, userId, amount, currency, source, meta, inSession);
            o.result.Ok? || (!inSession && env.supportsTransactions) ==> Consistent(o.state)
  {
    var d := DebitOutcome(s, env, userId, amount, currency, source, meta, inSession);
    if amount > 0 && userId in s.users && Balance(s.users[userId], currency) >= amount {
      DebitEffect(s, env, userId, amount, currency, source, meta, inSession);
      if d.result.Ok? {
        MoveKeepsConsistent(s, d.state, EntryOf(userId, Debit, amount, currency, source, meta), -amount);
      }
    }
  }

  /** Appending entry e while moving its user's balance by the entry's signed amount keeps the
      ledger consistent. */
  lemma MoveKeepsConsistent(s: State, t: State, e: LedgerEntry, delta: int)
    requires Consistent(s)
    requires delta == if e.kind == Credit then e.amount else -e.amount
    requires t.transactions == s.transactions + [e]
    requires BalanceMoved(s.users, t.users, e.userId, e.currency, delta)
    ensures Consistent(t)
  {
    forall u, c | u in t.users
      ensures Balance(t.users[u], c) == Net(t.transactions, u, c)
    {
      NetAppend(s.transactions, e, u, c);
    }
  }

  /** Crediting and then debiting the same amount in the same currency restores every
      balance and leaves exactly the two entries in the ledger. */
  lemma CreditThenDebitRestoresBalance(s: State, env: Env, userId: UserId, amount: int, currency: Currency,
                                       source: string, meta: Option<Meta>, inSession: bool,
                                       debitSource: string, debitMeta: Option<Meta>, debitInSession: bool)
    requires NonNegative(s) && amount > 0 && userId in s.users
    requires CreditGoesThrough(env, EntryOf(userId, Credit, amount, currency, source, meta))
    requires DebitGoesThrough(env, EntryOf(userId, Debit, amount, currency, debitSource, debitMeta))
    ensures var c := CreditOutcome(s, env, userId, amount, currency, source, meta, inSession);
            var d := DebitOutcome(c.state, env, userId, amount, currency, debitSource, debitMeta, debitInSession);
            && c.result.Ok? && d.result.Ok?
            && d.state.users == s.users
            && d.state.transactions == s.transactions
                 + [EntryOf(userId, Credit, amount, currency, source, meta), EntryOf(userId, Debit, amount, currency, debitSource, debitMeta)]
  {
    var c := CreditOutcome(s, env, userId, amount, currency, source, meta, inSession);
    CreditEffect(s, env, userId, amount, currency, source, meta, inSession);
    DebitEffect(c.state, env, userId, amount, currency, debitSource, debitMeta, debitInSession);
    var d := DebitOutcome(c.state, env, userId, amount, currency, debitSource, debitMeta, debitInSession);
    MovedBackRestores(s.users, c.state.users, d.state.users, userId, currency, amount);
  }

  /** Moving a balance by `delta` and then by `-delta` restores every user. */
  lemma MovedBackRestores(a: map<UserId, User>, b: map<UserId, User>, c: map<UserId, User>,
                          u: UserId, cur: Currency, delta: int)
    requires u in a
    requires BalanceMoved(a, b, u, cur, delta) && BalanceMoved(b, c, u, cur, -delta)
    ensures c == a
  {
    assert c[u] == a[u];
  }

  /** Neither a credit nor a debit, whatever its outcome, touches the referral records, adds
      or removes a user, or changes a user's referral code or `referredBy`. */
  lemma MutatorFrame(s: State, env: Env, userId: UserId, amount: int, currency: Currency,
                     source: string, meta: Option<Meta>, inSession: bool)
    ensures var o := CreditOutcome(s, env, userId, amount, currency, source, meta, inSession);
            o.state.referrals == s.referrals && LinksKept(s.users, o.state.users)
    ensures var o := DebitOutcome(s, env, userId, amount, currency, source, meta, inSession);
            o.state.referrals == s.referrals && LinksKept(s.users, o.state.users)
  {
    CreditFrame(s, env, userId, amount, currency, source, meta, inSession);
    DebitFrame(s, env, userId, amount, currency, source, meta, inSession);
  }

  lemma CreditFrame(s: State, env: Env, userId: UserId, amount: int, currency: Currency,
                    source: string, meta: Option<Meta>, inSession: bool)
    ensures var o := CreditOutcome(s, env, userId, amount, currency, source, meta, inSession);
            o.state.referrals == s.referrals && LinksKept(s.users, o.state.users)
  {
    var e := EntryOf(userId, Credit, amount, currency, source, meta);
    BodyFrame(s, env, InsertTransaction(e), IncBalance(userId, currency, amount));
  }

  lemma DebitFrame(s: State, env: Env, userId: UserId, amount: int, currency: Currency,
                   source: string, meta: Option<Meta>, inSession: bool)
    ensures var o := DebitOutcome(s, env, userId, amount, currency, source, meta, inSession);
            o.state.referrals == s.referrals && LinksKept(s.users, o.state.users)
  {
    var d := EntryOf(userId, Debit, amount, currency, source, meta);
    BodyFrame(s, env, InsertTransaction(d), DecrementIfCovered(userId, currency, amount));
  }

  /** Two writes of the wallet, run one after the other, keep the frame of `MutatorFrame`. */
  lemma BodyFrame(s: State, env: Env, w1: Write, w2: Write)
    requires w1.InsertTransaction? && (w2.IncBalance? || w2.DecrementIfCovered?)
    ensures var r := ThenWrite(RunWrite(s, env, w1), env, w2);
            r.state.referrals == s.referrals && LinksKept(s.users, r.state.users)
  {
  }
}
