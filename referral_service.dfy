/**
 * The referral ledger and the tier-reward engine.
 *
 * The ledger holds three tables: profiles (with their referral codes), referrals and rewards.
 * Money is held in integer cents. Row ids and the `created_at` order of rewards come from one
 * counter, `nextId`, that every insert advances. Each service operation is specified by a pure
 * step function from the tables before the call to the result and the tables after it. The class
 * `ReferralLedger` implements those step functions, reading and then writing its fields.
 */
module ReferralService {
  import opened Common
  import opened Seqs
  import Decimal

  /** Reward for one completed referral: 5.00. */
  const ReferralRewardCents := 500

  datatype Tier = Tier1 | Tier2 | Tier3 {
    /** Completed referrals needed to reach the tier. */
    function Threshold(): nat {
      match this
      case Tier1 => 3
      case Tier2 => 5
      case Tier3 => 10
    }

    /** The one-time bonus of the tier: 10.00, 25.00 and 50.00. */
    function BonusCents(): nat {
      match this
      case Tier1 => 1000
      case Tier2 => 2500
      case Tier3 => 5000
    }

    /** The text stored in a reward's `type` column and returned as `tier` by the next-tier query. */
    function Code(): string {
      match this
      case Tier1 => "TIER_1"
      case Tier2 => "TIER_2"
      case Tier3 => "TIER_3"
    }

    function DisplayName(): string {
      match this
      case Tier1 => "Tier 1"
      case Tier2 => "Tier 2"
      case Tier3 => "Tier 3"
    }
  }

  datatype RewardKind = Signup | TierBonus(tier: Tier) {
    function Code(): string {
      match this
      case Signup => "SIGNUP"
      case TierBonus(t) => t.Code()
    }
  }

  /** The `status` column of a referral: `pending` or `completed`. */
  datatype ReferralStatus = Pending | Completed

  /** Payout state of a reward. The service only ever writes `PENDING`; other rows may be paid. */
  datatype PayoutStatus = PayoutPending | Paid

  datatype Profile = Profile(id: string, referralCode: Option<string>)

  datatype Referral = Referral(
    id: nat,
    referrerId: string,
    referredId: string,
    status: ReferralStatus,
    rewardCents: int,
    completedAt: Option<nat>)

  /** A reward row; `createdAt` is the counter value at insertion, which orders the rows by age. */
  datatype Reward = Reward(
    userId: string,
    referrerId: string,
    amountCents: int,
    kind: RewardKind,
    status: PayoutStatus,
    createdAt: nat)

  datatype Error =
    | ReferralCodeUnavailable
    | AlreadyReferred
    | ReferralNotFound
    | AlreadyCompleted
    | TierAlreadyAwarded(tier: Tier)
    | InvalidReferralCode
  {
    function Message(): string {
      match this
      case ReferralCodeUnavailable => "Failed to get referral code"
      case AlreadyReferred => "User already has a referral"
      case ReferralNotFound => "Referral not found"
      case AlreadyCompleted => "Referral already completed"
      case TierAlreadyAwarded(t) => "Tier " + t.Code() + " reward already awarded"
      case InvalidReferralCode => "Invalid referral code"
    }
  }

  datatype Tables = Tables(
    profiles: seq<Profile>,
    referrals: seq<Referral>,
    rewards: seq<Reward>,
    nextId: nat)

  /** What an operation returns, together with the tables it leaves behind. */
  datatype Outcome<T> = Outcome(result: Result<T, Error>, db: Tables)

  // Row filters, one per query condition the service uses.

  function ProfileIdIs(id: string): Profile -> bool { (p: Profile) => p.id == id }
  function HoldsCode(code: string): Profile -> bool { (p: Profile) => p.referralCode == Some(code) }
  function ReferralIdIs(id: nat): Referral -> bool { (r: Referral) => r.id == id }
  function ReferredIs(userId: string): Referral -> bool { (r: Referral) => r.referredId == userId }
  function ReferrerIs(userId: string): Referral -> bool { (r: Referral) => r.referrerId == userId }
  function CompletedBy(userId: string): Referral -> bool {
    (r: Referral) => r.referrerId == userId && r.status == Completed
  }
  function PendingBy(userId: string): Referral -> bool {
    (r: Referral) => r.referrerId == userId && r.status == Pending
  }
  function OwnedBy(userId: string): Reward -> bool { (w: Reward) => w.userId == userId }
  function RewardOf(userId: string, kind: RewardKind): Reward -> bool {
    (w: Reward) => w.userId == userId && w.kind == kind
  }

  // The table invariant.

  /** `profiles.id` is a key. */
  predicate ProfileIdsDistinct(ps: seq<Profile>) {
    forall i, j :: 0 <= i < j < |ps| ==> ps[i].id != ps[j].id
  }

  /** `referrals.id` is a key, and every id was drawn from the counter. */
  predicate ReferralIdsFresh(rs: seq<Referral>, nextId: nat) {
    (forall i :: 0 <= i < |rs| ==> rs[i].id < nextId) &&
    (forall i, j :: 0 <= i < j < |rs| ==> rs[i].id != rs[j].id)
  }

  /** A referral carries a completion time exactly when it is completed. */
  predicate CompletionStamped(rs: seq<Referral>) {
    forall i :: 0 <= i < |rs| ==> (rs[i].status == Completed <==> rs[i].completedAt.Some?)
  }

  predicate OldestFirst(ws: seq<Reward>) {
    forall i, j :: 0 <= i < j < |ws| ==> ws[i].createdAt < ws[j].createdAt
  }

  predicate NewestFirst(ws: seq<Reward>) {
    forall i, j :: 0 <= i < j < |ws| ==> ws[i].createdAt > ws[j].createdAt
  }

  /** Rewards appear in insertion order, each stamped before the counter's current value. */
  predicate Chronological(ws: seq<Reward>, nextId: nat) {
    (forall i :: 0 <= i < |ws| ==> ws[i].createdAt < nextId) && OldestFirst(ws)
  }

  /** No user holds two bonus rewards of the same tier. */
  predicate TierBonusesUnique(ws: seq<Reward>) {
    forall i, j :: 0 <= i < j < |ws| && ws[i].kind.TierBonus? ==>
      !(ws[j].userId == ws[i].userId && ws[j].kind == ws[i].kind)
  }

  predicate Inv(db: Tables) {
    ProfileIdsDistinct(db.profiles) &&
    ReferralIdsFresh(db.referrals, db.nextId) &&
    CompletionStamped(db.referrals) &&
    Chronological(db.rewards, db.nextId) &&
    TierBonusesUnique(db.rewards)
  }

  // Tiers.

  /** The tier `checkAndAwardTierRewards` attempts for a completed count: the highest one reached. */
  function TierReached(count: int): (r: Option<Tier>)
    ensures r.Some? <==> count >= Tier1.Threshold()
    ensures r.Some? ==> r.value.Threshold() <= count
    ensures r.Some? ==> forall t: Tier :: t.Threshold() <= count ==> t.Threshold() <= r.value.Threshold()
  {
    if count >= Tier3.Threshold() then Some(Tier3)
    else if count >= Tier2.Threshold() then Some(Tier2)
    else if count >= Tier1.Threshold() then Some(Tier1)
    else None
  }

  datatype TierTarget = TierTarget(tier: Tier, displayName: string, referralsNeeded: int)

  /** `getNextTier`: the lowest tier whose threshold is still above the completed count. */
  function NextTier(completed: int): (r: Option<TierTarget>)
    ensures r.None? <==> completed >= Tier3.Threshold()
    ensures r.Some? ==> completed + r.value.referralsNeeded == r.value.tier.Threshold()
    ensures r.Some? ==> r.value.referralsNeeded >= 1
    ensures r.Some? ==> r.value.displayName == r.value.tier.DisplayName()
    ensures r.Some? ==> forall t: Tier :: t.Threshold() > completed ==> r.value.tier.Threshold() <= t.Threshold()
  {
    if completed >= Tier3.Threshold() then None
    else if completed >= Tier2.Threshold() then
      Some(TierTarget(Tier3, "Tier 3", Tier3.Threshold() - completed))
    else if completed >= Tier1.Threshold() then
      Some(TierTarget(Tier2, "Tier 2", Tier2.Threshold() - completed))
    else
      Some(TierTarget(Tier1, "Tier 1", Tier1.Threshold() - completed))
  }

  /** The four bands of `getNextTier`, stated with the constants written out. */
  lemma NextTierBands(c: int)
    ensures c >= 10 ==> NextTier(c) == None
    ensures 5 <= c < 10 ==> NextTier(c) == Some(TierTarget(Tier3, "Tier 3", 10 - c))
    ensures 3 <= c < 5 ==> NextTier(c) == Some(TierTarget(Tier2, "Tier 2", 5 - c))
    ensures c < 3 ==> NextTier(c) == Some(TierTarget(Tier1, "Tier 1", 3 - c))
    ensures NextTier(3) == Some(TierTarget(Tier2, "Tier 2", 2))
  {
  }

  /**
   * The dashboard's promise and the engine agree: completing the advertised number of further
   * referrals makes the tier check attempt exactly the advertised tier.
   */
  lemma NextTierIsAttemptedOnArrival(c: nat)
    requires NextTier(c).Some?
    ensures TierReached(c + NextTier(c).value.referralsNeeded) == Some(NextTier(c).value.tier)
  {
  }

  /** The kind codes written to the `type` column tell the kinds apart. */
  lemma KindCodesDistinct(a: RewardKind, b: RewardKind)
    requires a.Code() == b.Code()
    ensures a == b
  {
  }

  /** The bonus text the referral dashboard shows for the next tier's code. */
  function DashboardBonusText(tierCode: string): (s: string)
    ensures |s| == 5 && s[2] == '.'
  {
    if tierCode == "TIER_1" then "10.00"
    else if tierCode == "TIER_2" then "25.00"
    else "50.00"
  }

  /** An amount of cents written as dollars with two decimals. */
  function CentsText(cents: nat): (s: string)
    ensures |s| >= 4 && s[|s| - 3] == '.'
  {
    Decimal.NatToText(cents / 100) + "." + [Decimal.DigitChar(cents % 100 / 10), Decimal.DigitChar(cents % 10)]
  }

  /** The dashboard shows, for every tier, exactly the bonus the engine awards for it. */
  lemma DashboardShowsAwardedBonus(t: Tier)
    ensures DashboardBonusText(t.Code()) == CentsText(t.BonusCents())
  {
    assert Decimal.NatToText(t.BonusCents() / 100) == [Decimal.DigitChar(t.BonusCents() / 1000), Decimal.DigitChar(t.BonusCents() / 100 % 10)];
  }

  // Step functions: the specification of each service operation.

  /** `generateReferralCode`: the stored code of the one profile with that id. */
  function ReferralCodeOf(db: Tables, userId: string): (r: Result<Option<string>, Error>)
    ensures r.Err? <==> Count(db.profiles, ProfileIdIs(userId)) != 1
    ensures r.Err? ==> r.error == ReferralCodeUnavailable
    ensures r.Ok? ==> exists i :: 0 <= i < |db.profiles| && db.profiles[i].id == userId &&
                                 db.profiles[i].referralCode == r.value
  {
    var rows := Filter(db.profiles, ProfileIdIs(userId));
    if |rows| != 1 then Err(ReferralCodeUnavailable)
    else
      FilterMembership(db.profiles, ProfileIdIs(userId), rows[0]);
      Ok(rows[0].referralCode)
  }

  /** The tables after one pending 5.00 referral from `referrerId` to `referredId` was appended. */
  predicate AppendedPendingReferral(before: Tables, after: Tables, row: Referral, referrerId: string, referredId: string) {
    after.referrals == before.referrals + [row] &&
    row.referrerId == referrerId && row.referredId == referredId &&
    row.status == Pending && row.completedAt.None? && row.rewardCents == ReferralRewardCents &&
    after.profiles == before.profiles && after.rewards == before.rewards
  }

  /** The insert both referral-creating operations end with. */
  function InsertReferral(db: Tables, referrerId: string, referredId: string): (r: Outcome<Referral>)
    ensures r.result.Ok? && AppendedPendingReferral(db, r.db, r.result.value, referrerId, referredId)
    ensures r.result.value.id == db.nextId && r.db.nextId == db.nextId + 1
  {
    var row := Referral(db.nextId, referrerId, referredId, Pending, ReferralRewardCents, None);
    Outcome(Ok(row), db.(referrals := db.referrals + [row], nextId := db.nextId + 1))
  }

  /**
   * `createReferral`. The existence check reads the referred user's referral with `.single()`, so
   * it refuses only when exactly one such referral exists.
   */
  function CreateReferralStep(db: Tables, referrerId: string, referredId: string): (r: Outcome<Referral>)
    ensures r.result.Err? <==> Count(db.referrals, ReferredIs(referredId)) == 1
    ensures r.result.Err? ==> r.result.error == AlreadyReferred && r.db == db
    ensures r.result.Ok? ==> AppendedPendingReferral(db, r.db, r.result.value, referrerId, referredId)
  {
    if Count(db.referrals, ReferredIs(referredId)) == 1 then Outcome(Err(AlreadyReferred), db)
    else InsertReferral(db, referrerId, referredId)
  }

  /**
   * `createReferralFromCode`: the referrer is the one profile holding the code. Whether the
   * referred user already has a referral is not looked at.
   */
  function CreateFromCodeStep(db: Tables, code: string, referredId: string): (r: Outcome<Referral>)
    ensures r.result.Err? <==> Count(db.profiles, HoldsCode(code)) != 1
    ensures r.result.Err? ==> r.result.error == InvalidReferralCode && r.db == db
    ensures r.result.Ok? ==> exists i :: 0 <= i < |db.profiles| && db.profiles[i].referralCode == Some(code) &&
                                        AppendedPendingReferral(db, r.db, r.result.value, db.profiles[i].id, referredId)
  {
    var owners := Filter(db.profiles, HoldsCode(code));
    if |owners| != 1 then Outcome(Err(InvalidReferralCode), db)
    else
      FilterMembership(db.profiles, HoldsCode(code), owners[0]);
      InsertReferral(db, owners[0].id, referredId)
  }

  /** The reward `completeReferral` issues for a referral: its amount, to its referrer. */
  function SignupReward(referral: Referral, at: nat): Reward {
    Reward(referral.referrerId, referral.referrerId, referral.rewardCents, Signup, PayoutPending, at)
  }

  function TierReward(userId: string, tier: Tier, amountCents: int, at: nat): Reward {
    Reward(userId, userId, amountCents, TierBonus(tier), PayoutPending, at)
  }

  /** The referral at `i` marked completed at `now`, and the signup reward appended. */
  function MarkCompleted(db: Tables, i: nat, now: nat): (r: Tables)
    requires i < |db.referrals|
    ensures r.profiles == db.profiles && r.nextId == db.nextId + 1
    ensures |r.referrals| == |db.referrals| && |r.rewards| == |db.rewards| + 1
    ensures db.referrals[i].status == Pending ==> CompletedAndRewarded(db, r, i, now)
  {
    var row := db.referrals[i];
    db.(referrals := db.referrals[i := row.(status := Completed, completedAt := Some(now))],
        rewards := db.rewards + [SignupReward(row, db.nextId)],
        nextId := db.nextId + 1)
  }

  /** Drops the value of a successful result, keeping its error. */
  function Forget<T>(res: Result<T, Error>): (r: Result<(), Error>)
    ensures r.Ok? <==> res.Ok?
    ensures r.Err? ==> r.error == res.error
  {
    match res
    case Ok(_) => Ok(())
    case Err(e) => Err(e)
  }

  /** `awardTierReward`: refuses when the user holds exactly one reward of that tier already. */
  function AwardTierStep(db: Tables, userId: string, tier: Tier, amountCents: int): (r: Outcome<Reward>)
    ensures r.result.Err? <==> Count(db.rewards, RewardOf(userId, TierBonus(tier))) == 1
    ensures r.result.Err? ==> r.result.error == TierAlreadyAwarded(tier) && r.db == db
    ensures r.result.Ok? ==> r.result.value == TierReward(userId, tier, amountCents, db.nextId)
    ensures r.result.Ok? ==> r.db == db.(rewards := db.rewards + [r.result.value], nextId := db.nextId + 1)
  {
    if Count(db.rewards, RewardOf(userId, TierBonus(tier))) == 1 then
      Outcome(Err(TierAlreadyAwarded(tier)), db)
    else
      var w := TierReward(userId, tier, amountCents, db.nextId);
      Outcome(Ok(w), db.(rewards := db.rewards + [w], nextId := db.nextId + 1))
  }

  /**
   * `checkAndAwardTierRewards`: one attempt, for the highest tier the user's completed count has
   * reached, and none below three completions.
   */
  function CheckTierStep(db: Tables, userId: string): (r: Outcome<()>)
    ensures r.db.profiles == db.profiles && r.db.referrals == db.referrals
    ensures TierReached(Count(db.referrals, CompletedBy(userId))).None? ==> r == Outcome(Ok(()), db)
    ensures r.result.Err? <==> (TierReached(Count(db.referrals, CompletedBy(userId))).Some? &&
      Count(db.rewards, RewardOf(userId, TierBonus(TierReached(Count(db.referrals, CompletedBy(userId))).value))) == 1)
    ensures r.result.Err? ==>
      r.db == db && r.result.error == TierAlreadyAwarded(TierReached(Count(db.referrals, CompletedBy(userId))).value)
    ensures r.result.Ok? && TierReached(Count(db.referrals, CompletedBy(userId))).Some? ==>
      var t := TierReached(Count(db.referrals, CompletedBy(userId))).value;
      r.db == db.(rewards := db.rewards + [TierReward(userId, t, t.BonusCents(), db.nextId)], nextId := db.nextId + 1)
  {
    match TierReached(Count(db.referrals, CompletedBy(userId)))
    case None => Outcome(Ok(()), db)
    case Some(t) =>
      var award := AwardTierStep(db, userId, t, t.BonusCents());
      Outcome(Forget(award.result), award.db)
  }

  /** The referral at `i` completed at `now`, with its signup reward directly after the old rows. */
  predicate CompletedAndRewarded(before: Tables, after: Tables, i: nat, now: nat)
    requires i < |before.referrals|
  {
    var row := before.referrals[i];
    row.status == Pending &&
    after.referrals == before.referrals[i := row.(status := Completed, completedAt := Some(now))] &&
    after.profiles == before.profiles &&
    |before.rewards| < |after.rewards| <= |before.rewards| + 2 &&
    after.rewards[..|before.rewards| + 1] == before.rewards + [SignupReward(row, before.nextId)]
  }

  /** Where `completeReferral` finds the referral it looks up. */
  function Located(db: Tables, referralId: nat): nat {
    FirstIndex(db.referrals, ReferralIdIs(referralId))
  }

  /**
   * `completeReferral`. A failed tier award is reported as the call's error, but only after the
   * referral was completed and the signup reward inserted.
   */
  function CompleteStep(db: Tables, referralId: nat, now: nat): (r: Outcome<()>)
    ensures r.result == Err(ReferralNotFound) <==> Count(db.referrals, ReferralIdIs(referralId)) != 1
    ensures r.result == Err(AlreadyCompleted) <==>
      Count(db.referrals, ReferralIdIs(referralId)) == 1 && db.referrals[Located(db, referralId)].status == Completed
    ensures r.result == Err(ReferralNotFound) || r.result == Err(AlreadyCompleted) ==> r.db == db
    ensures r.result.Ok? || r.result.error.TierAlreadyAwarded? ==>
      Located(db, referralId) < |db.referrals| && CompletedAndRewarded(db, r.db, Located(db, referralId), now)
    ensures r.result.Err? && r.result.error.TierAlreadyAwarded? ==> |r.db.rewards| == |db.rewards| + 1
  {
    var i := Located(db, referralId);
    if Count(db.referrals, ReferralIdIs(referralId)) != 1 then Outcome(Err(ReferralNotFound), db)
    else if db.referrals[i].status == Completed then Outcome(Err(AlreadyCompleted), db)
    else
      var marked := MarkCompleted(db, i, now);
      assert marked.rewards[..|db.rewards| + 1] == marked.rewards;
      CheckTierStep(marked, db.referrals[i].referrerId)
  }

  // The table invariant is kept by every operation.

  /** Under the invariant a user holds at most one bonus of each tier. */
  lemma TierBonusAtMostOnce(ws: seq<Reward>, userId: string, tier: Tier)
    requires TierBonusesUnique(ws)
    ensures Count(ws, RewardOf(userId, TierBonus(tier))) <= 1
  {
    CountAtMostOne(ws, RewardOf(userId, TierBonus(tier)));
  }

  lemma InsertReferralKeepsInv(db: Tables, referrerId: string, referredId: string)
    requires Inv(db)
    ensures Inv(InsertReferral(db, referrerId, referredId).db)
  {
  }

  lemma CreateReferralStepKeepsInv(db: Tables, referrerId: string, referredId: string)
    requires Inv(db)
    ensures Inv(CreateReferralStep(db, referrerId, referredId).db)
  {
    InsertReferralKeepsInv(db, referrerId, referredId);
  }

  lemma CreateFromCodeStepKeepsInv(db: Tables, code: string, referredId: string)
    requires Inv(db)
    ensures Inv(CreateFromCodeStep(db, code, referredId).db)
  {
    var owners := Filter(db.profiles, HoldsCode(code));
    if |owners| == 1 {
      InsertReferralKeepsInv(db, owners[0].id, referredId);
    }
  }

  lemma AwardTierStepKeepsInv(db: Tables, userId: string, tier: Tier, amountCents: int)
    requires Inv(db)
    ensures Inv(AwardTierStep(db, userId, tier, amountCents).db)
  {
    var held := RewardOf(userId, TierBonus(tier));
    if Count(db.rewards, held) != 1 {
      TierBonusAtMostOnce(db.rewards, userId, tier);
      CountZero(db.rewards, held);
    }
  }

  lemma CheckTierStepKeepsInv(db: Tables, userId: string)
    requires Inv(db)
    ensures Inv(CheckTierStep(db, userId).db)
  {
    var reached := TierReached(Count(db.referrals, CompletedBy(userId)));
    if reached.Some? {
      AwardTierStepKeepsInv(db, userId, reached.value, reached.value.BonusCents());
    }
  }

  lemma MarkCompletedKeepsInv(db: Tables, i: nat, now: nat)
    requires Inv(db) && i < |db.referrals|
    ensures Inv(MarkCompleted(db, i, now))
  {
  }

  lemma CompleteStepKeepsInv(db: Tables, referralId: nat, now: nat)
    requires Inv(db)
    ensures Inv(CompleteStep(db, referralId, now).db)
  {
    var i := Located(db, referralId);
    if Count(db.referrals, ReferralIdIs(referralId)) == 1 && db.referrals[i].status == Pending {
      MarkCompletedKeepsInv(db, i, now);
      CheckTierStepKeepsInv(MarkCompleted(db, i, now), db.referrals[i].referrerId);
    }
  }

  // Properties of the operations.

  /** When a user has at most one referral as the referred party, `createReferral` refuses exactly when it has one. */
  lemma CreateReferralRefusesReferredUser(db: Tables, referrerId: string, referredId: string)
    requires Count(db.referrals, ReferredIs(referredId)) <= 1
    ensures CreateReferralStep(db, referrerId, referredId).result.Err? <==>
      exists i :: 0 <= i < |db.referrals| && db.referrals[i].referredId == referredId
  {
    CountZero(db.referrals, ReferredIs(referredId));
  }

  /**
   * `createReferralFromCode` gives an already referred user a second referral, and with two rows
   * for that user the `.single()` check of `createReferral` lets a third one through.
   */
  lemma SecondReferralDefeatsSingleCheck(db: Tables, code: string, referredId: string, otherReferrer: string)
    requires Count(db.referrals, ReferredIs(referredId)) == 1
    requires Count(db.profiles, HoldsCode(code)) == 1
    ensures CreateFromCodeStep(db, code, referredId).result.Ok?
    ensures Count(CreateFromCodeStep(db, code, referredId).db.referrals, ReferredIs(referredId)) == 2
    ensures CreateReferralStep(CreateFromCodeStep(db, code, referredId).db, otherReferrer, referredId).result.Ok?
  {
    var viaCode := CreateFromCodeStep(db, code, referredId);
    FilterAppend(db.referrals, viaCode.result.value, ReferredIs(referredId));
  }

  /** Under the invariant, completing fails with "Referral not found" exactly when no referral has the id. */
  lemma CompleteUnknownReferral(db: Tables, referralId: nat, now: nat)
    requires Inv(db)
    ensures CompleteStep(db, referralId, now).result == Err(ReferralNotFound) <==>
      forall i :: 0 <= i < |db.referrals| ==> db.referrals[i].id != referralId
  {
    CountAtMostOne(db.referrals, ReferralIdIs(referralId));
    CountZero(db.referrals, ReferralIdIs(referralId));
  }

  /** A referral is completed at most once: a second call on the same id fails and changes nothing. */
  lemma SecondCompletionFails(db: Tables, referralId: nat, now1: nat, now2: nat)
    ensures CompleteStep(CompleteStep(db, referralId, now1).db, referralId, now2).result.Err?
    ensures CompleteStep(CompleteStep(db, referralId, now1).db, referralId, now2).db == CompleteStep(db, referralId, now1).db
    ensures var first := CompleteStep(db, referralId, now1);
      first.result.Ok? || first.result.error.TierAlreadyAwarded? ==>
        CompleteStep(first.db, referralId, now2).result == Err(AlreadyCompleted)
  {
    var first := CompleteStep(db, referralId, now1);
    if first.result.Ok? || first.result.error.TierAlreadyAwarded? {
      var i := Located(db, referralId);
      var x := db.referrals[i].(status := Completed, completedAt := Some(now1));
      CountUpdate(db.referrals, i, x, ReferralIdIs(referralId));
      FirstIndexUpdate(db.referrals, ReferralIdIs(referralId), x);
      assert first.db.referrals == db.referrals[i := x];
    }
  }

  /**
   * Completing a pending referral whose new completed count reaches a tier the referrer already
   * holds fails with that tier's error, after completing the referral and inserting the signup reward.
   */
  lemma CompletionRetriesHeldTier(db: Tables, referralId: nat, now: nat, tier: Tier)
    requires Count(db.referrals, ReferralIdIs(referralId)) == 1
    requires db.referrals[Located(db, referralId)].status == Pending
    requires TierReached(Count(db.referrals, CompletedBy(db.referrals[Located(db, referralId)].referrerId)) + 1) == Some(tier)
    requires Count(db.rewards, RewardOf(db.referrals[Located(db, referralId)].referrerId, TierBonus(tier))) == 1
    ensures CompleteStep(db, referralId, now).result == Err(TierAlreadyAwarded(tier))
    ensures CompletedAndRewarded(db, CompleteStep(db, referralId, now).db, Located(db, referralId), now)
  {
    var i := Located(db, referralId);
    var row := db.referrals[i];
    var x := row.(status := Completed, completedAt := Some(now));
    CountUpdate(db.referrals, i, x, CompletedBy(row.referrerId));
    FilterAppend(db.rewards, SignupReward(row, db.nextId), RewardOf(row.referrerId, TierBonus(tier)));
  }

  /** The fourth completion re-attempts `TIER_1`, which the third one awarded, and so fails. */
  lemma FourthCompletionRetriesTierOne(db: Tables, referralId: nat, now: nat)
    requires Count(db.referrals, ReferralIdIs(referralId)) == 1
    requires db.referrals[Located(db, referralId)].status == Pending
    requires Count(db.referrals, CompletedBy(db.referrals[Located(db, referralId)].referrerId)) == 3
    requires Count(db.rewards, RewardOf(db.referrals[Located(db, referralId)].referrerId, TierBonus(Tier1))) == 1
    ensures CompleteStep(db, referralId, now).result == Err(TierAlreadyAwarded(Tier1))
    ensures CompletedAndRewarded(db, CompleteStep(db, referralId, now).db, Located(db, referralId), now)
  {
    CompletionRetriesHeldTier(db, referralId, now, Tier1);
  }

  /**
   * Completing a pending referral whose new completed count reaches a tier the referrer does not
   * hold yet succeeds, and appends the signup reward followed by that tier's bonus.
   */
  lemma CompletionAwardsReachedTier(db: Tables, referralId: nat, now: nat, tier: Tier)
    requires Count(db.referrals, ReferralIdIs(referralId)) == 1
    requires db.referrals[Located(db, referralId)].status == Pending
    requires TierReached(Count(db.referrals, CompletedBy(db.referrals[Located(db, referralId)].referrerId)) + 1) == Some(tier)
    requires Count(db.rewards, RewardOf(db.referrals[Located(db, referralId)].referrerId, TierBonus(tier))) == 0
    ensures CompleteStep(db, referralId, now).result == Ok(())
    ensures var row := db.referrals[Located(db, referralId)];
      CompleteStep(db, referralId, now).db.rewards ==
        db.rewards + [SignupReward(row, db.nextId), TierReward(row.referrerId, tier, tier.BonusCents(), db.nextId + 1)]
  {
    var i := Located(db, referralId);
    var row := db.referrals[i];
    var x := row.(status := Completed, completedAt := Some(now));
    CountUpdate(db.referrals, i, x, CompletedBy(row.referrerId));
    FilterAppend(db.rewards, SignupReward(row, db.nextId), RewardOf(row.referrerId, TierBonus(tier)));
  }

  /**
   * Completing a pending referral that leaves its referrer below three completions succeeds and
   * appends the signup reward alone.
   */
  lemma CompletionBelowFirstTier(db: Tables, referralId: nat, now: nat)
    requires Count(db.referrals, ReferralIdIs(referralId)) == 1
    requires db.referrals[Located(db, referralId)].status == Pending
    requires Count(db.referrals, CompletedBy(db.referrals[Located(db, referralId)].referrerId)) + 1 < Tier1.Threshold()
    ensures CompleteStep(db, referralId, now).result == Ok(())
    ensures CompleteStep(db, referralId, now).db ==
      MarkCompleted(db, Located(db, referralId), now)
    ensures CompleteStep(db, referralId, now).db.rewards ==
      db.rewards + [SignupReward(db.referrals[Located(db, referralId)], db.nextId)]
  {
    var i := Located(db, referralId);
    var row := db.referrals[i];
    var x := row.(status := Completed, completedAt := Some(now));
    CountUpdate(db.referrals, i, x, CompletedBy(row.referrerId));
  }

  /** `.update({ referral_code: code }).eq('id', id)`: every profile with that id gets the code. */
  function SetCode(ps: seq<Profile>, id: string, code: string): (r: seq<Profile>)
    ensures |r| == |ps|
    ensures forall j :: 0 <= j < |ps| ==> r[j].id == ps[j].id
  {
    seq(|ps|, j requires 0 <= j < |ps| =>
      if ps[j].id == id then ps[j].(referralCode := Some(code)) else ps[j])
  }

  /** With ids distinct, updating one profile's id touches that profile alone. */
  lemma SetCodeTouchesOneProfile(ps: seq<Profile>, k: nat, code: string)
    requires ProfileIdsDistinct(ps) && k < |ps|
    ensures SetCode(ps, ps[k].id, code) == ps[k := ps[k].(referralCode := Some(code))]
  {
  }

  // Statistics.

  datatype ReferralStats = ReferralStats(
    totalReferrals: nat,
    completedReferrals: nat,
    pendingReferrals: int,
    totalRewards: int,
    nextTier: Option<TierTarget>,
    rewards: seq<Reward>)

  /** `reduce((sum, reward) => sum + amount, 0)`: the amounts added up from the first row on. */
  function SumAmounts(ws: seq<Reward>): (t: int)
    ensures (forall i :: 0 <= i < |ws| ==> ws[i].amountCents >= 0) ==> t >= 0
  {
    if ws == [] then 0 else SumAmounts(ws[..|ws| - 1]) + ws[|ws| - 1].amountCents
  }

  lemma {:induction false} SumAmountsFront(w: Reward, ws: seq<Reward>)
    ensures SumAmounts([w] + ws) == w.amountCents + SumAmounts(ws)
  {
    if ws != [] {
      assert ([w] + ws)[..|ws|] == [w] + ws[..|ws| - 1];
      SumAmountsFront(w, ws[..|ws| - 1]);
    }
  }

  /** The total does not depend on the order in which the rows are listed. */
  lemma {:induction false} SumAmountsReverse(ws: seq<Reward>)
    ensures SumAmounts(Reverse(ws)) == SumAmounts(ws)
  {
    if ws != [] {
      SumAmountsReverse(ws[1..]);
      var r := Reverse(ws);
      assert r[..|r| - 1] == Reverse(ws[1..]);
      SumAmountsFront(ws[0], ws[1..]);
      assert ws == [ws[0]] + ws[1..];
    }
  }

  lemma {:induction false} FilterOldestFirst(ws: seq<Reward>, p: Reward -> bool)
    requires OldestFirst(ws)
    ensures OldestFirst(Filter(ws, p))
  {
    if ws != [] {
      FilterOldestFirst(ws[1..], p);
      if p(ws[0]) {
        var rest := Filter(ws[1..], p);
        forall j | 0 <= j < |rest| ensures ws[0].createdAt < rest[j].createdAt {
          assert rest[j] in ws[1..];
          var k :| 0 <= k < |ws[1..]| && ws[1..][k] == rest[j];
          assert ws[k + 1] == rest[j];
        }
        assert forall j :: 0 < j < |[ws[0]] + rest| ==> ([ws[0]] + rest)[j] == rest[j - 1];
      }
    }
  }

  lemma ReverseNewestFirst(ws: seq<Reward>)
    requires OldestFirst(ws)
    ensures NewestFirst(Reverse(ws))
  {
    forall i, j | 0 <= i < j < |ws| ensures Reverse(ws)[i].createdAt > Reverse(ws)[j].createdAt {
      ReverseAt(ws, i);
      ReverseAt(ws, j);
    }
  }

  /** A user's referrals are each pending or completed, so pending = total − completed. */
  lemma {:induction false} ReferralsSplitByStatus(rs: seq<Referral>, userId: string)
    ensures Count(rs, ReferrerIs(userId)) == Count(rs, CompletedBy(userId)) + Count(rs, PendingBy(userId))
  {
    if rs != [] {
      ReferralsSplitByStatus(rs[1..], userId);
    }
  }

  /** The service over its three tables, which every operation reads and then updates in place. */
  class ReferralLedger {
    var profiles: seq<Profile>
    var referrals: seq<Referral>
    var rewards: seq<Reward>
    var nextId: nat

    function State(): Tables
      reads this
    {
      Tables(profiles, referrals, rewards, nextId)
    }

    predicate Valid()
      reads this
    {
      Inv(State())
    }

    constructor(db: Tables)
      requires Inv(db)
      ensures State() == db && Valid()
    {
      profiles := db.profiles;
      referrals := db.referrals;
      rewards := db.rewards;
      nextId := db.nextId;
    }

    /** `generateReferralCode`: reads the stored code, which may be absent. */
    method GenerateReferralCode(userId: string) returns (r: Result<Option<string>, Error>)
      ensures r == ReferralCodeOf(State(), userId)
    {
      var rows := Filter(profiles, ProfileIdIs(userId));
      if |rows| != 1 {
        return Err(ReferralCodeUnavailable);
      }
      r := Ok(rows[0].referralCode);
    }

    /** The insert `createReferral` and `createReferralFromCode` end with. */
    method InsertPendingReferral(referrerId: string, referredId: string) returns (r: Result<Referral, Error>)
      requires Valid()
      modifies this
      ensures Valid()
      ensures Outcome(r, State()) == InsertReferral(old(State()), referrerId, referredId)
    {
      InsertReferralKeepsInv(State(), referrerId, referredId);
      var row := Referral(nextId, referrerId, referredId, Pending, ReferralRewardCents, None);
      referrals := referrals + [row];
      nextId := nextId + 1;
      r := Ok(row);
    }

    method CreateReferral(referrerId: string, referredId: string) returns (r: Result<Referral, Error>)
      requires Valid()
      modifies this
      ensures Valid()
      ensures Outcome(r, State()) == CreateReferralStep(old(State()), referrerId, referredId)
    {
      CreateReferralStepKeepsInv(State(), referrerId, referredId);
      if Count(referrals, ReferredIs(referredId)) == 1 {
        return Err(AlreadyReferred);
      }
      r := InsertPendingReferral(referrerId, referredId);
    }

    method CreateReferralFromCode(code: string, referredId: string) returns (r: Result<Referral, Error>)
      requires Valid()
      modifies this
      ensures Valid()
      ensures Outcome(r, State()) == CreateFromCodeStep(old(State()), code, referredId)
    {
      CreateFromCodeStepKeepsInv(State(), code, referredId);
      var owners := Filter(profiles, HoldsCode(code));
      if |owners| != 1 {
        return Err(InvalidReferralCode);
      }
      r := InsertPendingReferral(owners[0].id, referredId);
    }

    method AwardTierReward(userId: string, tier: Tier, amountCents: int) returns (r: Result<Reward, Error>)
      requires Valid()
      modifies this
      ensures Valid()
      ensures Outcome(r, State()) == AwardTierStep(old(State()), userId, tier, amountCents)
    {
      AwardTierStepKeepsInv(State(), userId, tier, amountCents);
      if Count(rewards, RewardOf(userId, TierBonus(tier))) == 1 {
        return Err(TierAlreadyAwarded(tier));
      }
      var w := TierReward(userId, tier, amountCents, nextId);
      rewards := rewards + [w];
      nextId := nextId + 1;
      r := Ok(w);
    }

    method CheckAndAwardTierRewards(userId: string) returns (r: Result<(), Error>)
      requires Valid()
      modifies this
      ensures Valid()
      ensures Outcome(r, State()) == CheckTierStep(old(State()), userId)
    {
      var count := Count(referrals, CompletedBy(userId));
      var award: Result<Reward, Error>;
      if count >= Tier3.Threshold() {
        award := AwardTierReward(userId, Tier3, 5000);
      } else if count >= Tier2.Threshold() {
        award := AwardTierReward(userId, Tier2, 2500);
      } else if count >= Tier1.Threshold() {
        award := AwardTierReward(userId, Tier1, 1000);
      } else {
        return Ok(());
      }
      r := Forget(award);
    }

    method CompleteReferral(referralId: nat, now: nat) returns (r: Result<(), Error>)
      requires Valid()
      modifies this
      ensures Valid()
      ensures Outcome(r, State()) == CompleteStep(old(State()), referralId, now)
    {
      if Count(referrals, ReferralIdIs(referralId)) != 1 {
        return Err(ReferralNotFound);
      }
      var i := FirstIndex(referrals, ReferralIdIs(referralId));
      var referral := referrals[i];
      if referral.status == Completed {
        return Err(AlreadyCompleted);
      }
      ghost var before := State();
      MarkCompletedKeepsInv(before, i, now);
      referrals := referrals[i := referral.(status := Completed, completedAt := Some(now))];
      rewards := rewards + [SignupReward(referral, nextId)];
      nextId := nextId + 1;
      assert State() == MarkCompleted(before, i, now);
      r := CheckAndAwardTierRewards(referral.referrerId);
      assert Outcome(r, State()) == CheckTierStep(MarkCompleted(before, i, now), referral.referrerId);
    }

    /** Writes a referral code to the profiles with the given id. */
    method UpdateReferralCode(id: string, code: string)
      requires Valid()
      modifies this
      ensures Valid()
      ensures profiles == SetCode(old(profiles), id, code)
      ensures referrals == old(referrals) && rewards == old(rewards) && nextId == old(nextId)
    {
      profiles := SetCode(profiles, id, code);
    }

    /** `getReferralStats`: counts, the reward total and the reward rows newest first. */
    method GetReferralStats(userId: string) returns (stats: ReferralStats)
      ensures stats.totalReferrals == Count(referrals, ReferrerIs(userId))
      ensures stats.completedReferrals == Count(referrals, CompletedBy(userId))
      ensures stats.pendingReferrals == Count(referrals, PendingBy(userId))
      ensures stats.pendingReferrals == stats.totalReferrals - stats.completedReferrals
      ensures stats.nextTier == NextTier(stats.completedReferrals)
      ensures stats.totalRewards == SumAmounts(Filter(rewards, OwnedBy(userId)))
      ensures multiset(stats.rewards) == multiset(Filter(rewards, OwnedBy(userId)))
      ensures Valid() ==> NewestFirst(stats.rewards)
    {
      var total := Count(referrals, ReferrerIs(userId));
      var completed := Count(referrals, CompletedBy(userId));
      var rows := Reverse(Filter(rewards, OwnedBy(userId)));
      ReferralsSplitByStatus(referrals, userId);
      SumAmountsReverse(Filter(rewards, OwnedBy(userId)));
      ReverseMultiset(Filter(rewards, OwnedBy(userId)));
      if Valid() {
        FilterOldestFirst(rewards, OwnedBy(userId));
        ReverseNewestFirst(Filter(rewards, OwnedBy(userId)));
      }
      stats := ReferralStats(total, completed, total - completed, SumAmounts(rows), NextTier(completed), rows);
    }
  }
}
