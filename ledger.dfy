/** The store shared by the wallet and referral services: user documents with their two
    balances, the wallet transaction collection (the ledger) and the referral collection.
    Each store write is a value of `Write`; `Env` says which writes the store refuses and
    whether it supports multi-document transactions. */
module Ledger {
  import opened Common
  import opened Collections

  type UserId = string
  /** The optional `meta` object attached to a wallet transaction; opaque to the ledger. */
  type Meta = map<string, string>

  datatype Currency = Money | Coins
  datatype Direction = Credit | Debit

  /** One wallet transaction document. Its creation time is its position in the collection. */
  datatype LedgerEntry = LedgerEntry(
    userId: UserId,
    kind: Direction,
    amount: int,
    currency: Currency,
    source: string,
    meta: Option<Meta>)

  /** The fields of a user document that the wallet and referral services read or write. */
  datatype User = User(
    rewardWallet: int,
    coinWallet: int,
    referralCode: string,
    referredBy: Option<UserId>)

  datatype Referral = Referral(code: string, referrer: UserId, referee: UserId, bonusAmount: int)

  /** The contents of the three collections. */
  datatype State = State(
    users: map<UserId, User>,
    transactions: seq<LedgerEntry>,
    referrals: seq<Referral>)

  /** The balance field a currency selects: `rewardWallet` for money, `coinWallet` for coins. */
  function Balance(u: User, c: Currency): int {
    match c
    case Money => u.rewardWallet
    case Coins => u.coinWallet
  }

  function WithBalance(u: User, c: Currency, v: int): (u': User)
    ensures Balance(u', c) == v
    ensures forall d :: d != c ==> Balance(u', d) == Balance(u, d)
    ensures u'.referralCode == u.referralCode && u'.referredBy == u.referredBy
  {
    match c
    case Money => u.(rewardWallet := v)
    case Coins => u.(coinWallet := v)
  }

  /** Writes the services issue against the store. */
  datatype Write =
      /** `walletTransactionModel.create(...)` */
    | InsertTransaction(entry: LedgerEntry)
      /** `findByIdAndUpdate(userId, { $inc: { field: delta } })` */
    | IncBalance(userId: UserId, currency: Currency, delta: int)
      /** `findOneAndUpdate({ _id: userId, field: { $gte: amount } }, { $inc: { field: -amount } })` */
    | DecrementIfCovered(userId: UserId, currency: Currency, amount: int)
      /** `referralModel.create(...)` */
    | InsertReferral(referral: Referral)
      /** `findByIdAndUpdate(userId, { referredBy: referrer })` */
    | SetReferredBy(userId: UserId, referrer: UserId)

  /** Whether a write finds the document it updates (an insert always does). */
  predicate Matches(s: State, w: Write) {
    match w
    case InsertTransaction(_) => true
    case IncBalance(u, _, _) => u in s.users
    case DecrementIfCovered(u, c, a) => u in s.users && Balance(s.users[u], c) >= a
    case InsertReferral(_) => true
    case SetReferredBy(u, _) => u in s.users
  }

  /** The effect of a write the store carries out; an update that matches nothing changes nothing. */
  function Apply(s: State, w: Write): (s': State)
    ensures !Matches(s, w) ==> s' == s
    ensures s'.users.Keys == s.users.Keys
    ensures s'.transactions == s.transactions || (w.InsertTransaction? && s'.transactions == s.transactions + [w.entry])
    ensures s'.referrals == s.referrals || (w.InsertReferral? && s'.referrals == s.referrals + [w.referral])
  {
    if !Matches(s, w) then s
    else
      match w
      case InsertTransaction(e) => s.(transactions := s.transactions + [e])
      case IncBalance(u, c, d) =>
        s.(users := s.users[u := WithBalance(s.users[u], c, Balance(s.users[u], c) + d)])
      case DecrementIfCovered(u, c, a) =>
        s.(users := s.users[u := WithBalance(s.users[u], c, Balance(s.users[u], c) - a)])
      case InsertReferral(r) => s.(referrals := s.referrals + [r])
      case SetReferredBy(u, r) => s.(users := s.users[u := s.users[u].(referredBy := Some(r))])
  }

  /** The store a call runs against: whether it supports multi-document transactions (a replica
      set) and which writes fail with an error the services do not recognise. */
  datatype Env = Env(supportsTransactions: bool, failing: set<Write>)

  /** The outcome of a sequence of writes: the state reached, the error that stopped it, and
      whether the last write carried out matched its document. */
  datatype Run = Run(state: State, error: Option<Error>, matched: bool)

  /** The outcome of a service call: the state it leaves and what it returns or throws. */
  datatype Outcome<T> = Outcome(state: State, result: Result<T>)

  function RunWrite(s: State, env: Env, w: Write): (r: Run)
    ensures r.error.None? <==> w !in env.failing
    ensures r.error.Some? ==> r.state == s && r.error == Some(StoreError(OtherFault))
    ensures r.error.None? ==> r.state == Apply(s, w) && r.matched == Matches(s, w)
  {
    if w in env.failing then Run(s, Some(StoreError(OtherFault)), false)
    else Run(Apply(s, w), None, Matches(s, w))
  }

  /** `await` of a further write: it runs only if nothing before it failed. */
  function ThenWrite(r: Run, env: Env, w: Write): Run {
    if r.error.Some? then r else RunWrite(r.state, env, w)
  }

  /** The catch clauses' test for the two messages of a store without transactions. */
  predicate IsTransactionsUnsupported(e: Error) {
    e == StoreError(TransactionsUnsupported)
  }

  /** `session.withTransaction(body)` where `body` is what the callback does from state s:
      on a store without transactions it fails before any write; on any error it undoes
      everything the callback wrote. */
  function InTransaction(s: State, env: Env, body: Run): (r: Run)
    ensures r.error.None? ==> r == body
    ensures r.error.Some? ==> r.state == s
    ensures !env.supportsTransactions ==> r.error == Some(StoreError(TransactionsUnsupported)) && r.state == s
    ensures env.supportsTransactions ==> r.error == body.error
    ensures env.supportsTransactions && body.error.None? ==> r == body
  {
    if !env.supportsTransactions then Run(s, Some(StoreError(TransactionsUnsupported)), false)
    else if body.error.Some? then Run(s, body.error, false)
    else body
  }

  function Conclude<T>(r: Run, value: T): (o: Outcome<T>)
    ensures o.state == r.state
    ensures o.result.Ok? <==> r.error.None?
    ensures o.result.Ok? ==> o.result.value == value
    ensures o.result.Err? ==> o.result.error == r.error.value
  {
    Outcome(r.state, if r.error.Some? then Err(r.error.value) else Ok(value))
  }

  /** A call made without a caller session: try `transactional` inside an own transaction;
      on the recognised "transactions unsupported" error run `sequential` instead (the same
      steps, one by one, without a transaction); rethrow any other error. */
  function WithFallback<T>(s: State, env: Env, transactional: Run, sequential: Run, value: T): (o: Outcome<T>)
    ensures var fellBack := !env.supportsTransactions || transactional.error == Some(StoreError(TransactionsUnsupported));
            && (fellBack ==> o == Conclude(sequential, value))
            && (!fellBack && transactional.error.None? ==> o == Conclude(transactional, value))
            && (!fellBack && transactional.error.Some? ==> o == Outcome(s, Err(transactional.error.value)))
  {
    var attempt := InTransaction(s, env, transactional);
    if attempt.error.None? then Conclude(attempt, value)
    else if IsTransactionsUnsupported(attempt.error.value) then Conclude(sequential, value)
    else Outcome(s, Err(attempt.error.value))
  }

  /** Balances never go negative. */
  predicate NonNegative(s: State) {
    forall u :: u in s.users ==> s.users[u].rewardWallet >= 0 && s.users[u].coinWallet >= 0
  }

  /** What one entry contributes to the balance of user u in currency c. */
  function Delta(e: LedgerEntry, u: UserId, c: Currency): int {
    if e.userId == u && e.currency == c then
      (if e.kind == Credit then e.amount else -e.amount)
    else 0
  }

  /** Credits minus debits recorded in the ledger for user u in currency c. */
  function Net(entries: seq<LedgerEntry>, u: UserId, c: Currency): int {
    SumOf(entries, e => Delta(e, u, c))
  }

  lemma NetAppend(entries: seq<LedgerEntry>, e: LedgerEntry, u: UserId, c: Currency)
    ensures Net(entries + [e], u, c) == Net(entries, u, c) + Delta(e, u, c)
  {
    SumOfAppend(entries, [e], e' => Delta(e', u, c));
  }

  /** The ledger accounts for every balance: each balance equals its credits minus debits. */
  predicate Consistent(s: State) {
    forall u, c :: u in s.users ==> Balance(s.users[u], c) == Net(s.transactions, u, c)
  }

  /** `after` has the same users as `before`, each with the same referral code and `referredBy`. */
  predicate LinksKept(before: map<UserId, User>, after: map<UserId, User>) {
    && after.Keys == before.Keys
    && forall u :: u in before ==>
         after[u].referralCode == before[u].referralCode && after[u].referredBy == before[u].referredBy
  }

  /** No two users share a referral code. The referral service looks a referrer up with
      `findOne({ referralCode })` and treats the match as the code's only owner. */
  predicate UniqueCodes(users: map<UserId, User>) {
    forall u, v :: u in users && v in users && u != v ==> users[u].referralCode != users[v].referralCode
  }

  /** The three collections in the store. */
  class Database {
    var users: map<UserId, User>
    var transactions: seq<LedgerEntry>
    var referrals: seq<Referral>

    function Snapshot(): State
      reads this
    {
      State(users, transactions, referrals)
    }

    constructor (s: State)
      ensures Snapshot() == s
    {
      users, transactions, referrals := s.users, s.transactions, s.referrals;
    }

    /** Sends one write to the store. */
    method Execute(env: Env, w: Write) returns (err: Option<Error>, matched: bool)
      modifies this
      ensures Snapshot() == RunWrite(old(Snapshot()), env, w).state
      ensures err == RunWrite(old(Snapshot()), env, w).error
      ensures matched == RunWrite(old(Snapshot()), env, w).matched
    {
      if w in env.failing {
        return Some(StoreError(OtherFault)), false;
      }
      matched := Matches(Snapshot(), w);
      err := None;
      if matched {
        match w
        case InsertTransaction(e) =>
          transactions := transactions + [e];
        case IncBalance(u, c, d) =>
          users := users[u := WithBalance(users[u], c, Balance(users[u], c) + d)];
        case DecrementIfCovered(u, c, a) =>
          users := users[u := WithBalance(users[u], c, Balance(users[u], c) - a)];
        case InsertReferral(r) =>
          referrals := referrals + [r];
        case SetReferredBy(u, r) =>
          users := users[u := users[u].(referredBy := Some(r))];
      }
    }

    /** `startSession()` and the first operation of `withTransaction`: fails with the
        recognised error on a store without transactions; otherwise remembers the state
        to return to on abort. */
    method StartTransaction(env: Env) returns (snapshot: State, err: Option<Error>)
      ensures snapshot == Snapshot()
      ensures err.None? <==> env.supportsTransactions
      ensures err.Some? ==> err.value == StoreError(TransactionsUnsupported)
    {
      snapshot := Snapshot();
      err := if env.supportsTransactions then None else Some(StoreError(TransactionsUnsupported));
    }

    /** Aborting a transaction undoes every write made since it started. */
    method Abort(snapshot: State)
      modifies this
      ensures Snapshot() == snapshot
    {
      users, transactions, referrals := snapshot.users, snapshot.transactions, snapshot.referrals;
    }
  }
}
