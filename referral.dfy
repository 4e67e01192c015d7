/** The referral service: a user's code and referral count, and the two ways of settling a
    referral (`applyReferral` and `applyReferralOnSignup`). Settling writes one referral
    record, sets the referee's `referredBy`, and credits both parties' coins through the
    wallet. `applyReferral` does all of it inside one transaction; `applyReferralOnSignup`
    does it inside one transaction too, but on a store without transactions it runs the same
    writes one after the other.

    As for the wallet, each settlement is a method over the `Database` proved against a spec
    function over `State`, and the promised properties are lemmas about those functions. */
module Referrals {
  import opened Common
  import opened Collections
  import opened Ledger
  import opened Wallet

  /** The bonus, in coins, that each of the two parties receives. */
  const ReferralBonus := 50

  const InvalidCode := "Invalid referral code"
  const OwnCode := "Cannot use your own referral code"
  const AlreadyReferred := "User has already used a referral code"
  const CodeAlreadyUsed := "Referral code already used"
  const Applied := "Referral applied successfully"
  const ReferralSource := "referral"

  /** `{ referralCode, totalReferrals }` */
  datatype ReferralSummary = ReferralSummary(referralCode: string, totalReferrals: nat)

  /** `{ message, coinsEarned }` */
  datatype ReferralApplied = ReferralApplied(message: string, coinsEarned: int)

  // ---------------------------------------------------------------- lookups

  predicate HasCode(users: map<UserId, User>, code: string) {
    exists u :: u in users && users[u].referralCode == code
  }

  /** `userModel.findOne({ referralCode })`; the code is unique among users, so the user
      found is the one holding it. */
  function FindReferrer(users: map<UserId, User>, code: string): (r: Option<UserId>)
    requires UniqueCodes(users)
    ensures r.Some? <==> HasCode(users, code)
    ensures r.Some? ==> r.value in users && users[r.value].referralCode == code
  {
    if HasCode(users, code) then
      var u :| u in users && users[u].referralCode == code;
      Some(u)
    else None
  }

  /** The records naming `referrer` as the referrer. */
  function ReferralsBy(referrals: seq<Referral>, referrer: UserId): seq<Referral> {
    Filter(referrals, (r: Referral) => r.referrer == referrer)
  }

  /** `referralModel.findOne({ referee })` finds something. */
  predicate HasReferral(referrals: seq<Referral>, referee: UserId) {
    exists k :: 0 <= k < |referrals| && referrals[k].referee == referee
  }

  /** `referralModel.findOne({ referee, code })` finds something. */
  predicate UsedCode(referrals: seq<Referral>, referee: UserId, code: string) {
    exists k :: 0 <= k < |referrals| && referrals[k].referee == referee && referrals[k].code == code
  }

  /** `getReferralCode`: the user's code and how many records name them as the referrer. */
  function GetReferralCode(s: State, userId: UserId): (r: Result<ReferralSummary>)
    ensures r.Ok? <==> userId in s.users
    ensures r.Err? ==> r.error == NotFound(UserNotFound)
    ensures r.Ok? ==>
              && r.value.referralCode == s.users[userId].referralCode
              && r.value.totalReferrals == |ReferralsBy(s.referrals, userId)|
              && r.value.totalReferrals <= |s.referrals|
  {
    if userId !in s.users then Err(NotFound(UserNotFound))
    else Ok(ReferralSummary(s.users[userId].referralCode, |ReferralsBy(s.referrals, userId)|))
  }

  // ---------------------------------------------------------------- settlement, as functions

  function RecordOf(code: string, referrer: UserId, referee: UserId): Referral {
    Referral(code, referrer, referee, ReferralBonus)
  }

  /** The ledger entry of the referrer's bonus. */
  function ReferrerEntry(referee: UserId, referrer: UserId): LedgerEntry {
    EntryOf(referrer, Credit, ReferralBonus, Coins, ReferralSource, Some(map["refereeId" := referee]))
  }

  /** The ledger entry of the referee's bonus. */
  function RefereeEntry(referee: UserId, referrer: UserId): LedgerEntry {
    EntryOf(referee, Credit, ReferralBonus, Coins, ReferralSource, Some(map["referrerId" := referrer]))
  }

  /** `await walletService.addCoins(userId, REFERRAL_BONUS, 'referral', meta, session?)`,
      run only if nothing before it failed. */
  function ThenBonus(r: Run, env: Env, e: LedgerEntry, inSession: bool): Run {
    if r.error.Some? then r
    else
      var o := CreditOutcome(r.state, env, e.userId, e.amount, e.currency, e.source, e.meta, inSession);
      Run(o.state, if o.result.Err? then Some(o.result.error) else None, true)
  }

  /** The first two steps of a settlement: the referral record, then the referee's
      `referredBy`. */
  function RecordAndLink(s: State, env: Env, referee: UserId, referrer: UserId, code: string): Run {
    ThenWrite(RunWrite(s, env, InsertReferral(RecordOf(code, referrer, referee))), env, SetReferredBy(referee, referrer))
  }

  /** The four steps of a settlement, in order, each run only if the ones before succeeded:
      the referral record, the referee's `referredBy`, the referrer's bonus, the referee's
      bonus. With `inSession` the wallet joins the transaction the steps run in; without it
      each bonus is a wallet call of its own. */
  function Settle(s: State, env: Env, referee: UserId, referrer: UserId, code: string, inSession: bool): (r: Run)
    ensures var linked := RecordAndLink(s, env, referee, referrer, code);
            linked.error.Some? ==> r == linked
  {
    var linked := RecordAndLink(s, env, referee, referrer, code);
    var paid := ThenBonus(linked, env, ReferrerEntry(referee, referrer), inSession);
    ThenBonus(paid, env, RefereeEntry(referee, referrer), inSession)
  }

  /** `applyReferral`: the five checks, in order, then the settlement inside a transaction.
      There is no fallback: on a store without transactions the store's error is thrown. */
  function ApplyOutcome(s: State, env: Env, userId: UserId, code: string): (o: Outcome<ReferralApplied>)
    requires UniqueCodes(s.users)
    ensures o.result.Ok? ==> o.result.value == ReferralApplied(Applied, ReferralBonus)
    ensures !env.supportsTransactions ==> o.state == s && o.result.Err?
  {
    if userId !in s.users then Outcome(s, Err(NotFound(UserNotFound)))
    else if s.users[userId].referredBy.Some? then Outcome(s, Err(Conflict(AlreadyReferred)))
    else
      var referrer := FindReferrer(s.users, code);
      if referrer.None? then Outcome(s, Err(BadRequest(InvalidCode)))
      else if referrer.value == userId then Outcome(s, Err(BadRequest(OwnCode)))
      else if UsedCode(s.referrals, userId, code) then Outcome(s, Err(Conflict(CodeAlreadyUsed)))
      else
        Conclude(InTransaction(s, env, Settle(s, env, userId, referrer.value, code, true)),
                 ReferralApplied(Applied, ReferralBonus))
  }

  /** `applyReferralOnSignup`: three checks, in order (the user itself is not looked up), then
      the settlement inside a transaction; on the recognised "transactions unsupported" error
      the same four steps run one after the other, each bonus as a wallet call of its own. */
  function SignupOutcome(s: State, env: Env, userId: UserId, code: string): (o: Outcome<ReferralApplied>)
    requires UniqueCodes(s.users)
    ensures o.result.Ok? ==> o.result.value == ReferralApplied(Applied, ReferralBonus)
    ensures FindReferrer(s.users, code).None? ==> o == Outcome(s, Err(BadRequest(InvalidCode)))
  {
    var referrer := FindReferrer(s.users, code);
    if referrer.None? then Outcome(s, Err(BadRequest(InvalidCode)))
    else if referrer.value == userId then Outcome(s, Err(BadRequest(OwnCode)))
    else if HasReferral(s.referrals, userId) then Outcome(s, Err(Conflict(AlreadyReferred)))
    else
      WithFallback(s, env,
                   Settle(s, env, userId, referrer.value, code, true),
                   Settle(s, env, userId, referrer.value, code, false),
                   ReferralApplied(Applied, ReferralBonus))
  }

  // ---------------------------------------------------------------- settlement, as methods

  method RunSettle(db: Database, env: Env, referee: UserId, referrer: UserId, code: string, inSession: bool)
    returns (err: Option<Error>)
    modifies db
    ensures db.Snapshot() == Settle(old(db.Snapshot()), env, referee, referrer, code, inSession).state
    ensures err == Settle(old(db.Snapshot()), env, referee, referrer, code, inSession).error
  {
    var matched;
    err, matched := db.Execute(env, InsertReferral(RecordOf(code, referrer, referee)));
    if err.Some? {
      return;
    }
    err, matched := db.Execute(env, SetReferredBy(referee, referrer));
    if err.Some? {
      return;
    }
    var bonus := AddCoins(db, env, referrer, ReferralBonus, ReferralSource, Some(map["refereeId" := referee]), inSession);
    if bonus.Err? {
      return Some(bonus.error);
    }
    bonus := AddCoins(db, env, referee, ReferralBonus, ReferralSource, Some(map["referrerId" := referrer]), inSession);
    err := if bonus.Err? then Some(bonus.error) else None;
  }

  method ApplyReferral(db: Database, env: Env, userId: UserId, code: string) returns (r: Result<ReferralApplied>)
    requires UniqueCodes(db.users)
    modifies db
    ensures db.Snapshot() == ApplyOutcome(old(db.Snapshot()), env, userId, code).state
    ensures r == ApplyOutcome(old(db.Snapshot()), env, userId, code).result
  {
    if userId !in db.users {
      return Err(NotFound(UserNotFound));
    }
    if db.users[userId].referredBy.Some? {
      return Err(Conflict(AlreadyReferred));
    }
    var referrer := FindReferrer(db.users, code);
    if referrer.None? {
      return Err(BadRequest(InvalidCode));
    }
    if referrer.value == userId {
      return Err(BadRequest(OwnCode));
    }
    if UsedCode(db.referrals, userId, code) {
      return Err(Conflict(CodeAlreadyUsed));
    }
    var snapshot, err := db.StartTransaction(env);
    if err.None? {
      err := RunSettle(db, env, userId, referrer.value, code, true);
      if err.Some? {
        db.Abort(snapshot);
      }
    }
    r := if err.Some? then Err(err.value) else Ok(ReferralApplied(Applied, ReferralBonus));
  }

  method ApplyReferralOnSignup(db: Database, env: Env, userId: UserId, code: string) returns (r: Result<ReferralApplied>)
    requires UniqueCodes(db.users)
    modifies db
    ensures db.Snapshot() == SignupOutcome(old(db.Snapshot()), env, userId, code).state
    ensures r == SignupOutcome(old(db.Snapshot()), env, userId, code).result
  {
    var referrer := FindReferrer(db.users, code);
    if referrer.None? {
      return Err(BadRequest(InvalidCode));
    }
    if referrer.value == userId {
      return Err(BadRequest(OwnCode));
    }
    if HasReferral(db.referrals, userId) {
      return Err(Conflict(AlreadyReferred));
    }
    var applied := ReferralApplied(Applied, ReferralBonus);
    var snapshot, err := db.StartTransaction(env);
    if err.None? {
      err := RunSettle(db, env, userId, referrer.value, code, true);
      if err.Some? {
        db.Abort(snapshot);
      }
    }
    if err.None? {
      return Ok(applied);
    }
    if IsTransactionsUnsupported(err.value) {
      // standalone store: the four steps one after the other, each bonus its own wallet call
      err := RunSettle(db, env, userId, referrer.value, code, false);
      return if err.Some? then Err(err.value) else Ok(applied);
    }
    r := Err(err.value);
  }

  // ---------------------------------------------------------------- properties

  function Bonus(u: User): User {
    WithBalance(u, Coins, Balance(u, Coins) + ReferralBonus)
  }

  /** The store refuses none of the writes of a settlement. */
  predicate SettleGoesThrough(env: Env, referee: UserId, referrer: UserId, code: string) {
    && InsertReferral(RecordOf(code, referrer, referee)) !in env.failing
    && SetReferredBy(referee, referrer) !in env.failing
    && CreditGoesThrough(env, ReferrerEntry(referee, referrer))
    && CreditGoesThrough(env, RefereeEntry(referee, referrer))
  }

  /** `after` is `before` with both bonuses paid and the referee linked to the referrer; a
      referee without a user document gets neither (the bonus entry is still written). */
  predicate Rewarded(before: map<UserId, User>, after: map<UserId, User>, referee: UserId, referrer: UserId) {
    && after.Keys == before.Keys
    && (forall u :: u in before && u != referee && u != referrer ==> after[u] == before[u])
    && (referrer in before ==> after[referrer] == Bonus(before[referrer]))
    && (referee in before ==> after[referee] == Bonus(before[referee]).(referredBy := Some(referrer)))
  }

  /** The state after a complete settlement: exactly one new referral record, exactly the two
      bonus entries, and both parties rewarded. */
  predicate Settled(before: State, after: State, referee: UserId, referrer: UserId, code: string) {
    && after.referrals == before.referrals + [RecordOf(code, referrer, referee)]
    && after.transactions == before.transactions + [ReferrerEntry(referee, referrer), RefereeEntry(referee, referrer)]
    && Rewarded(before.users, after.users, referee, referrer)
  }

  /** The four steps succeed, in either wallet mode, exactly when the store takes all their
      writes, and then the settlement is complete. */
  lemma SettleEffect(s: State, env: Env, referee: UserId, referrer: UserId, code: string, inSession: bool)
    requires referrer in s.users && referee != referrer
    ensures var r := Settle(s, env, referee, referrer, code, inSession);
            && (r.error.None? <==> SettleGoesThrough(env, referee, referrer, code))
            && (r.error.None? ==> Settled(s, r.state, referee, referrer, code))
  {
    var linked := RecordAndLink(s, env, referee, referrer, code);
    RecordAndLinkEffect(s, env, referee, referrer, code);
    var e1 := ReferrerEntry(referee, referrer);
    var e2 := RefereeEntry(referee, referrer);
    var paid := ThenBonus(linked, env, e1, inSession);
    var r := ThenBonus(paid, env, e2, inSession);
    if linked.error.None? {
      BonusEffect(linked, env, e1, inSession);
      if paid.error.None? {
        BonusEffect(paid, env, e2, inSession);
        if r.error.None? {
          RewardedFromSteps(s.users, linked.state.users, paid.state.users, r.state.users, referee, referrer);
        }
      }
    }
  }

  /** The record and the link go through exactly when the store takes both writes; they
      then add the one record and set the referee's `referredBy`. */
  lemma RecordAndLinkEffect(s: State, env: Env, referee: UserId, referrer: UserId, code: string)
    ensures var l, rec := RecordAndLink(s, env, referee, referrer, code), RecordOf(code, referrer, referee);
            && l.state.transactions == s.transactions
            && (l.error.None? <==> InsertReferral(rec) !in env.failing && SetReferredBy(referee, referrer) !in env.failing)
            && (l.error.None? ==>
                  && l.state.referrals == s.referrals + [rec]
                  && l.state.users == if referee in s.users then s.users[referee := s.users[referee].(referredBy := Some(referrer))] else s.users)
  {
  }

  /** Whatever fails, the record and the link keep the users, their codes and every other
      user's link, and add at most the one record. */
  lemma RecordAndLinkFrame(s: State, env: Env, referee: UserId, referrer: UserId, code: string)
    ensures var l := RecordAndLink(s, env, referee, referrer, code);
            && l.state.users.Keys == s.users.Keys
            && (forall u :: u in s.users ==> l.state.users[u].referralCode == s.users[u].referralCode)
            && (forall u :: u in s.users && u != referee ==> l.state.users[u].referredBy == s.users[u].referredBy)
            && (l.state.referrals == s.referrals || l.state.referrals == s.referrals + [RecordOf(code, referrer, referee)])
  {
  }

  /** A bonus that is reached goes through exactly when the store takes the wallet's writes;
      it then appends its entry and raises one balance by the bonus. */
  lemma BonusEffect(r: Run, env: Env, e: LedgerEntry, inSession: bool)
    requires r.error.None? && e.kind == Credit && e.amount > 0
    ensures var t := ThenBonus(r, env, e, inSession);
            && (t.error.None? <==> CreditGoesThrough(env, e))
            && (t.error.None? ==>
                  && t.state.transactions == r.state.transactions + [e]
                  && t.state.referrals == r.state.referrals
                  && BalanceMoved(r.state.users, t.state.users, e.userId, e.currency, e.amount))
  {
    CreditEffect(r.state, env, e.userId, e.amount, e.currency, e.source, e.meta, inSession);
  }

  /** Linking the referee and then paying the referrer and the referee rewards both. */
  lemma RewardedFromSteps(a: map<UserId, User>, b: map<UserId, User>, c: map<UserId, User>, d: map<UserId, User>,
                          referee: UserId, referrer: UserId)
    requires referee != referrer
    requires b == if referee in a then a[referee := a[referee].(referredBy := Some(referrer))] else a
    requires BalanceMoved(b, c, referrer, Coins, ReferralBonus)
    requires BalanceMoved(c, d, referee, Coins, ReferralBonus)
    ensures Rewarded(a, d, referee, referrer)
  {
  }

  /** Every settlement step, whatever fails, keeps the users, their codes, and the links other
      than the referee's; the referral records grow by at most the one record. */
  lemma SettleFrame(s: State, env: Env, referee: UserId, referrer: UserId, code: string, inSession: bool)
    ensures var r := Settle(s, env, referee, referrer, code, inSession);
            && r.state.users.Keys == s.users.Keys
            && (forall u :: u in s.users ==> r.state.users[u].referralCode == s.users[u].referralCode)
            && (forall u :: u in s.users && u != referee ==> r.state.users[u].referredBy == s.users[u].referredBy)
            && (r.state.referrals == s.referrals || r.state.referrals == s.referrals + [RecordOf(code, referrer, referee)])
  {
    var linked := RecordAndLink(s, env, referee, referrer, code);
    RecordAndLinkFrame(s, env, referee, referrer, code);
    var paid := ThenBonus(linked, env, ReferrerEntry(referee, referrer), inSession);
    BonusFrame(linked, env, ReferrerEntry(referee, referrer), inSession);
    BonusFrame(paid, env, RefereeEntry(referee, referrer), inSession);
  }

  /** A bonus payment keeps the referral records and every user's links. */
  lemma BonusFrame(r: Run, env: Env, e: LedgerEntry, inSession: bool)
    ensures var t := ThenBonus(r, env, e, inSession);
            t.state.referrals == r.state.referrals && LinksKept(r.state.users, t.state.users)
  {
    if r.error.None? {
      CreditFrame(r.state, env, e.userId, e.amount, e.currency, e.source, e.meta, inSession);
    }
  }

  /** `applyReferral`'s checks, in order: each rejection names the first check that fails,
      and no rejection and no failed settlement leaves anything in the store. The code being
      the user's own is recognised by the code alone, since codes are unique. */
  lemma ApplyChecks(s: State, env: Env, userId: UserId, code: string)
    requires UniqueCodes(s.users)
    ensures var o := ApplyOutcome(s, env, userId, code);
            && (o.result.Err? ==> o.state == s)
            && (userId !in s.users ==> o.result == Err(NotFound(UserNotFound)))
            && (userId in s.users && s.users[userId].referredBy.Some? ==> o.result == Err(Conflict(AlreadyReferred)))
            && (userId in s.users && s.users[userId].referredBy.None? ==>
                  && (!HasCode(s.users, code) ==> o.result == Err(BadRequest(InvalidCode)))
                  && (s.users[userId].referralCode == code ==> o.result == Err(BadRequest(OwnCode)))
                  && (HasCode(s.users, code) && s.users[userId].referralCode != code && UsedCode(s.referrals, userId, code) ==>
                        o.result == Err(Conflict(CodeAlreadyUsed))))
  {
    if userId in s.users && s.users[userId].referredBy.None? && s.users[userId].referralCode == code {
      assert HasCode(s.users, code);
      assert FindReferrer(s.users, code) == Some(userId);
    }
  }

  /** An accepted `applyReferral` succeeds exactly when the store has transactions and takes
      every write; it then has settled the referral completely and reports the bonus. On a
      store without transactions it fails with the store's error and writes nothing. */
  lemma ApplyEffect(s: State, env: Env, userId: UserId, referrer: UserId, code: string)
    requires UniqueCodes(s.users)
    requires userId in s.users && s.users[userId].referredBy.None?
    requires referrer in s.users && s.users[referrer].referralCode == code && referrer != userId
    requires !UsedCode(s.referrals, userId, code)
    ensures var o := ApplyOutcome(s, env, userId, code);
            && (o.result.Ok? <==> env.supportsTransactions && SettleGoesThrough(env, userId, referrer, code))
            && (o.result.Ok? ==> o.result.value == ReferralApplied(Applied, ReferralBonus) && Settled(s, o.state, userId, referrer, code))
            && (!env.supportsTransactions ==> o == Outcome(s, Err(StoreError(TransactionsUnsupported))))
  {
    assert HasCode(s.users, code);
    assert FindReferrer(s.users, code) == Some(referrer);
    SettleEffect(s, env, userId, referrer, code, true);
  }

  /** A referee who holds a referral record and, if a user, has `referredBy` set cannot
      redeem again by either entry point: both fail and write nothing. */
  lemma SettledRefereeIsRejected(s: State, env: Env, userId: UserId, code: string)
    requires UniqueCodes(s.users)
    requires HasReferral(s.referrals, userId)
    requires userId in s.users ==> s.users[userId].referredBy.Some?
    ensures ApplyOutcome(s, env, userId, code).result.Err? && ApplyOutcome(s, env, userId, code).state == s
    ensures SignupOutcome(s, env, userId, code).result.Err? && SignupOutcome(s, env, userId, code).state == s
  {
  }

  /** After a successful `applyReferral`, redeeming any code again for the same referee fails
      with a conflict by `applyReferral` and fails by `applyReferralOnSignup`; no second bonus
      is paid. */
  lemma SecondApplyFails(s: State, env: Env, userId: UserId, code: string, env': Env, code': string)
    requires UniqueCodes(s.users)
    requires ApplyOutcome(s, env, userId, code).result.Ok?
    ensures var t := ApplyOutcome(s, env, userId, code).state;
            && UniqueCodes(t.users)
            && ApplyOutcome(t, env', userId, code') == Outcome(t, Err(Conflict(AlreadyReferred)))
            && SignupOutcome(t, env', userId, code').result.Err?
            && SignupOutcome(t, env', userId, code').state == t
  {
    var referrer := FindReferrer(s.users, code).value;
    ApplyEffect(s, env, userId, referrer, code);
    var t := ApplyOutcome(s, env, userId, code).state;
    assert UniqueCodes(t.users) by {
      forall u | u in t.users
        ensures t.users[u].referralCode == s.users[u].referralCode
      {
      }
    }
    assert t.referrals[|s.referrals|].referee == userId;
    SettledRefereeIsRejected(t, env', userId, code');
  }

  /** A successful `applyReferral` raises the referrer's `totalReferrals` by exactly one and
      leaves everybody else's count as it was. */
  lemma ApplyCountsOneReferral(s: State, env: Env, userId: UserId, code: string, v: UserId)
    requires UniqueCodes(s.users)
    requires ApplyOutcome(s, env, userId, code).result.Ok?
    requires v in s.users
    ensures var t := ApplyOutcome(s, env, userId, code).state;
            var before := GetReferralCode(s, v).value.totalReferrals;
            var after := GetReferralCode(t, v).value.totalReferrals;
            after == if v == FindReferrer(s.users, code).value then before + 1 else before
  {
    var referrer := FindReferrer(s.users, code).value;
    ApplyEffect(s, env, userId, referrer, code);
    FilterAppend(s.referrals, [RecordOf(code, referrer, userId)], (r: Referral) => r.referrer == v);
  }

  /** `applyReferralOnSignup`'s checks, in order; a rejection writes nothing. */
  lemma SignupChecks(s: State, env: Env, userId: UserId, code: string)
    requires UniqueCodes(s.users)
    ensures var o := SignupOutcome(s, env, userId, code);
            && (!HasCode(s.users, code) ==> o == Outcome(s, Err(BadRequest(InvalidCode))))
            && (userId in s.users && s.users[userId].referralCode == code ==> o == Outcome(s, Err(BadRequest(OwnCode))))
            && (HasCode(s.users, code) && (userId in s.users ==> s.users[userId].referralCode != code) && HasReferral(s.referrals, userId) ==>
                  o == Outcome(s, Err(Conflict(AlreadyReferred))))
  {
    if userId in s.users && s.users[userId].referralCode == code {
      assert HasCode(s.users, code);
      assert FindReferrer(s.users, code) == Some(userId);
    }
  }

  /** An accepted `applyReferralOnSignup` succeeds, on either kind of store, exactly when the
      store takes every write, and then has settled the referral completely. On a store with
      transactions a failure writes nothing; on one without, the four steps ran one after the
      other without a transaction. */
  lemma SignupEffect(s: State, env: Env, userId: UserId, referrer: UserId, code: string)
    requires UniqueCodes(s.users)
    requires referrer in s.users && s.users[referrer].referralCode == code && referrer != userId
    requires !HasReferral(s.referrals, userId)
    ensures var o := SignupOutcome(s, env, userId, code);
            && (o.result.Ok? <==> SettleGoesThrough(env, userId, referrer, code))
            && (o.result.Ok? ==> o.result.value == ReferralApplied(Applied, ReferralBonus) && Settled(s, o.state, userId, referrer, code))
            && (env.supportsTransactions && o.result.Err? ==> o.state == s)
            && (!env.supportsTransactions ==>
                  o == Conclude(Settle(s, env, userId, referrer, code, false), ReferralApplied(Applied, ReferralBonus)))
  {
    assert HasCode(s.users, code);
    assert FindReferrer(s.users, code) == Some(referrer);
    SettleEffect(s, env, userId, referrer, code, true);
    SettleEffect(s, env, userId, referrer, code, false);
  }

  /** The risk the signup fallback accepts: when linking the referee fails after the record
      was written, the record stays while no user changes and no bonus is paid. */
  lemma SignupFallbackLeavesRecordWithoutBonus(s: State, env: Env, userId: UserId, referrer: UserId, code: string)
    requires UniqueCodes(s.users)
    requires referrer in s.users && s.users[referrer].referralCode == code && referrer != userId
    requires !HasReferral(s.referrals, userId)
    requires !env.supportsTransactions
    requires InsertReferral(RecordOf(code, referrer, userId)) !in env.failing
    requires SetReferredBy(userId, referrer) in env.failing
    ensures var o := SignupOutcome(s, env, userId, code);
            && o.result == Err(StoreError(OtherFault))
            && o.state == s.(referrals := s.referrals + [RecordOf(code, referrer, userId)])
  {
    SignupEffect(s, env, userId, referrer, code);
  }

  /** No settlement throws the "transactions unsupported" signal except `applyReferral`,
      which has no fallback. */
  lemma SignupNeverLeaksUnsupported(s: State, env: Env, userId: UserId, code: string)
    requires UniqueCodes(s.users)
    ensures SignupOutcome(s, env, userId, code).result != Err(StoreError(TransactionsUnsupported))
  {
    var referrer := FindReferrer(s.users, code);
    if referrer.Some? && referrer.value != userId && !HasReferral(s.referrals, userId) {
      if !env.supportsTransactions {
        SettleNeverLeaksUnsupported(s, env, userId, referrer.value, code);
      }
    }
  }

  lemma SettleNeverLeaksUnsupported(s: State, env: Env, referee: UserId, referrer: UserId, code: string)
    ensures Settle(s, env, referee, referrer, code, false).error != Some(StoreError(TransactionsUnsupported))
  {
    var linked := RecordAndLink(s, env, referee, referrer, code);
    var e1 := ReferrerEntry(referee, referrer);
    var e2 := RefereeEntry(referee, referrer);
    var paid := ThenBonus(linked, env, e1, false);
    UnsupportedSignalNeverLeaks(linked.state, env, referrer, ReferralBonus, Coins, ReferralSource, e1.meta, false);
    UnsupportedSignalNeverLeaks(paid.state, env, referee, ReferralBonus, Coins, ReferralSource, e2.meta, false);
  }

  // ---------------------------------------------------------------- invariants

  /** At most one referral record per referee. */
  predicate OneReferralPerReferee(referrals: seq<Referral>) {
    forall i, j :: 0 <= i < j < |referrals| ==> referrals[i].referee != referrals[j].referee
  }

  /** Every user named as a referee in a record has `referredBy` set. */
  predicate Linked(s: State) {
    forall k :: 0 <= k < |s.referrals| && s.referrals[k].referee in s.users ==>
      s.users[s.referrals[k].referee].referredBy.Some?
  }

  /** `applyReferral` keeps both invariants whatever happens; `applyReferralOnSignup` keeps
      one record per referee whatever happens, and the links when it succeeds or runs on a
      store with transactions. */
  lemma ReferralInvariantsPreserved(s: State, env: Env, userId: UserId, code: string)
    requires UniqueCodes(s.users) && OneReferralPerReferee(s.referrals) && Linked(s)
    ensures var o := ApplyOutcome(s, env, userId, code);
            OneReferralPerReferee(o.state.referrals) && Linked(o.state)
    ensures var o := SignupOutcome(s, env, userId, code);
            && OneReferralPerReferee(o.state.referrals)
            && (o.result.Ok? || env.supportsTransactions ==> Linked(o.state))
  {
    ApplyKeepsInvariants(s, env, userId, code);
    SignupKeepsInvariants(s, env, userId, code);
  }

  lemma ApplyKeepsInvariants(s: State, env: Env, userId: UserId, code: string)
    requires UniqueCodes(s.users) && OneReferralPerReferee(s.referrals) && Linked(s)
    ensures var o := ApplyOutcome(s, env, userId, code);
            OneReferralPerReferee(o.state.referrals) && Linked(o.state)
  {
    var referrer := FindReferrer(s.users, code);
    if && referrer.Some? && referrer.value != userId && userId in s.users
       && s.users[userId].referredBy.None? && !UsedCode(s.referrals, userId, code) {
      ApplyEffect(s, env, userId, referrer.value, code);
      ApplyChecks(s, env, userId, code);
      assert !HasReferral(s.referrals, userId);
      if ApplyOutcome(s, env, userId, code).result.Ok? {
        AppendKeepsInvariants(s, ApplyOutcome(s, env, userId, code).state, userId, referrer.value, code);
      }
    }
  }

  lemma SignupKeepsInvariants(s: State, env: Env, userId: UserId, code: string)
    requires UniqueCodes(s.users) && OneReferralPerReferee(s.referrals) && Linked(s)
    ensures var o := SignupOutcome(s, env, userId, code);
            && OneReferralPerReferee(o.state.referrals)
            && (o.result.Ok? || env.supportsTransactions ==> Linked(o.state))
  {
    var referrer := FindReferrer(s.users, code);
    if referrer.Some? && referrer.value != userId && !HasReferral(s.referrals, userId) {
      var rec := RecordOf(code, referrer.value, userId);
      SignupEffect(s, env, userId, referrer.value, code);
      var o := SignupOutcome(s, env, userId, code);
      if o.result.Ok? {
        AppendKeepsInvariants(s, o.state, userId, referrer.value, code);
      } else if !env.supportsTransactions {
        SettleFrame(s, env, userId, referrer.value, code, false);
        if o.state.referrals != s.referrals {
          assert o.state.referrals == s.referrals + [rec];
          forall i, j | 0 <= i < j < |o.state.referrals|
            ensures o.state.referrals[i].referee != o.state.referrals[j].referee
          {
            if j == |s.referrals| {
              assert o.state.referrals[i] == s.referrals[i];
            }
          }
        }
      }
    }
  }

  lemma AppendKeepsInvariants(s: State, t: State, referee: UserId, referrer: UserId, code: string)
    requires OneReferralPerReferee(s.referrals) && Linked(s)
    requires !HasReferral(s.referrals, referee) && referee != referrer
    requires Settled(s, t, referee, referrer, code)
    ensures OneReferralPerReferee(t.referrals) && Linked(t)
  {
    var n := |s.referrals|;
    forall i, j | 0 <= i < j < |t.referrals|
      ensures t.referrals[i].referee != t.referrals[j].referee
    {
      if j == n {
        assert t.referrals[i] == s.referrals[i];
      }
    }
    forall k | 0 <= k < |t.referrals| && t.referrals[k].referee in t.users
      ensures t.users[t.referrals[k].referee].referredBy.Some?
    {
      if k < n {
        assert t.referrals[k] == s.referrals[k];
      }
    }
  }

  /** A settlement only credits, so balances stay non-negative whatever fails; and a
      settlement that succeeds keeps every balance equal to its credits minus debits. */
  lemma SettleKeepsLedger(s: State, env: Env, referee: UserId, referrer: UserId, code: string, inSession: bool)
    ensures var r := Settle(s, env, referee, referrer, code, inSession);
            && (NonNegative(s) ==> NonNegative(r.state))
            && (Consistent(s) && r.error.None? ==> Consistent(r.state))
  {
    var linked := RecordAndLink(s, env, referee, referrer, code);
    var e1 := ReferrerEntry(referee, referrer);
    var e2 := RefereeEntry(referee, referrer);
    var paid := ThenBonus(linked, env, e1, inSession);
    var r := ThenBonus(paid, env, e2, inSession);
    if linked.error.None? {
      assert forall u, c :: u in linked.state.users ==> Balance(linked.state.users[u], c) == Balance(s.users[u], c);
      if NonNegative(s) {
        BalancesStayNonNegative(linked.state, env, referrer, ReferralBonus, Coins, ReferralSource, e1.meta, inSession);
        if paid.error.None? {
          BalancesStayNonNegative(paid.state, env, referee, ReferralBonus, Coins, ReferralSource, e2.meta, inSession);
        }
      }
      if Consistent(s) {
        LedgerStaysConsistent(linked.state, env, referrer, ReferralBonus, Coins, ReferralSource, e1.meta, inSession);
        if paid.error.None? {
          LedgerStaysConsistent(paid.state, env, referee, ReferralBonus, Coins, ReferralSource, e2.meta, inSession);
        }
      }
    }
  }

  /** Both entry points keep balances non-negative, and the ledger consistent whenever they
      succeed or leave the store unchanged. */
  lemma ReferralsKeepLedger(s: State, env: Env, userId: UserId, code: string)
    requires UniqueCodes(s.users)
    ensures var o := ApplyOutcome(s, env, userId, code);
            && (NonNegative(s) ==> NonNegative(o.state))
            && (Consistent(s) ==> Consistent(o.state))
    ensures var o := SignupOutcome(s, env, userId, code);
            && (NonNegative(s) ==> NonNegative(o.state))
            && (Consistent(s) && (o.result.Ok? || env.supportsTransactions) ==> Consistent(o.state))
  {
    ApplyKeepsLedger(s, env, userId, code);
    SignupKeepsLedger(s, env, userId, code);
  }

  lemma ApplyKeepsLedger(s: State, env: Env, userId: UserId, code: string)
    requires UniqueCodes(s.users)
    ensures var o := ApplyOutcome(s, env, userId, code);
            && (NonNegative(s) ==> NonNegative(o.state))
            && (Consistent(s) ==> Consistent(o.state))
  {
    var referrer := FindReferrer(s.users, code);
    var o := ApplyOutcome(s, env, userId, code);
    if userId in s.users && s.users[userId].referredBy.None? && referrer.Some? && referrer.value != userId
       && !UsedCode(s.referrals, userId, code) {
      var body := Settle(s, env, userId, referrer.value, code, true);
      SettleKeepsLedger(s, env, userId, referrer.value, code, true);
      var tx := InTransaction(s, env, body);
      assert o.state == tx.state;
      assert tx.state == s || (body.error.None? && tx.state == body.state);
    } else {
      assert o.state == s;
    }
  }

  lemma SignupKeepsLedger(s: State, env: Env, userId: UserId, code: string)
    requires UniqueCodes(s.users)
    ensures var o := SignupOutcome(s, env, userId, code);
            && (NonNegative(s) ==> NonNegative(o.state))
            && (Consistent(s) && (o.result.Ok? || env.supportsTransactions) ==> Consistent(o.state))
  {
    var referrer := FindReferrer(s.users, code);
    var o := SignupOutcome(s, env, userId, code);
    if referrer.Some? && referrer.value != userId && !HasReferral(s.referrals, userId) {
      var transactional := Settle(s, env, userId, referrer.value, code, true);
      var sequential := Settle(s, env, userId, referrer.value, code, false);
      SettleKeepsLedger(s, env, userId, referrer.value, code, true);
      SettleKeepsLedger(s, env, userId, referrer.value, code, false);
      if !env.supportsTransactions || transactional.error == Some(StoreError(TransactionsUnsupported)) {
        assert o == Conclude(sequential, ReferralApplied(Applied, ReferralBonus));
      } else if transactional.error.None? {
        assert o.state == transactional.state;
      } else {
        assert o.state == s;
      }
    } else {
      assert o.state == s;
    }
  }
}
