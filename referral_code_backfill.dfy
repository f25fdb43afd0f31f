/**
 * The one-off script that gives every profile without a referral code a new six-character code.
 * It reads all profiles once, then walks that snapshot, updating each profile that needs a code by
 * its id and counting the updates that succeed. The random codes and the outcome of each update
 * are inputs, one per profile of the snapshot.
 */
module ReferralCodeBackfill {
  import opened Common
  import opened ReferralService

  const CodeLength := 6

  /** `!user.referral_code`: no code, or the empty one. */
  predicate NeedsCode(p: Profile) {
    p.referralCode.None? || p.referralCode == Some("")
  }

  /** One profile after the script has visited it. */
  function Visited(p: Profile, code: string, updateFails: bool): Profile {
    if NeedsCode(p) && !updateFails then p.(referralCode := Some(code)) else p
  }

  /** The profiles after a run over the snapshot `ps`. */
  function Backfilled(ps: seq<Profile>, codes: seq<string>, updateFails: seq<bool>): (r: seq<Profile>)
    requires |codes| == |ps| && |updateFails| == |ps|
    ensures |r| == |ps|
  {
    seq(|ps|, j requires 0 <= j < |ps| => Visited(ps[j], codes[j], updateFails[j]))
  }

  /** How many of the first `n` profiles the run updates successfully. */
  function Updates(ps: seq<Profile>, updateFails: seq<bool>, n: nat): (u: nat)
    requires n <= |ps| && n <= |updateFails|
    ensures u <= n
  {
    if n == 0 then 0
    else Updates(ps, updateFails, n - 1) + (if NeedsCode(ps[n - 1]) && !updateFails[n - 1] then 1 else 0)
  }

  /** How many of the first `n` positions differ between two profile tables. */
  function Changed(before: seq<Profile>, after: seq<Profile>, n: nat): nat
    requires n <= |before| && n <= |after|
  {
    if n == 0 then 0
    else Changed(before, after, n - 1) + (if before[n - 1] != after[n - 1] then 1 else 0)
  }

  datatype BackfillError = ProfileSelectFailed

  /** `main`. A failed select throws before any update; otherwise every profile of the snapshot is visited once. */
  method Backfill(ledger: ReferralLedger, selectFails: bool, codes: seq<string>, updateFails: seq<bool>)
    returns (r: Result<nat, BackfillError>)
    requires ledger.Valid()
    requires |codes| == |ledger.profiles| && |updateFails| == |ledger.profiles|
    requires forall j :: 0 <= j < |codes| ==> |codes[j]| == CodeLength
    modifies ledger
    ensures ledger.Valid()
    ensures ledger.referrals == old(ledger.referrals) && ledger.rewards == old(ledger.rewards)
    ensures ledger.nextId == old(ledger.nextId)
    ensures selectFails ==> r == Err(ProfileSelectFailed) && ledger.profiles == old(ledger.profiles)
    ensures !selectFails ==>
      r == Ok(Updates(old(ledger.profiles), updateFails, |updateFails|)) &&
      ledger.profiles == Backfilled(old(ledger.profiles), codes, updateFails)
  {
    if selectFails {
      return Err(ProfileSelectFailed);
    }
    var users := ledger.profiles;
    var updated := 0;
    var k := 0;
    while k < |users|
      invariant 0 <= k <= |users|
      invariant ledger.Valid()
      invariant |ledger.profiles| == |users|
      invariant forall j :: 0 <= j < |users| ==>
        ledger.profiles[j] == if j < k then Visited(users[j], codes[j], updateFails[j]) else users[j]
      invariant ledger.referrals == old(ledger.referrals) && ledger.rewards == old(ledger.rewards)
      invariant ledger.nextId == old(ledger.nextId)
      invariant updated == Updates(users, updateFails, k)
    {
      var user := users[k];
      if NeedsCode(user) {
        var code := codes[k];
        if !updateFails[k] {
          SetCodeTouchesOneProfile(ledger.profiles, k, code);
          ledger.UpdateReferralCode(user.id, code);
          updated := updated + 1;
        }
      }
      k := k + 1;
    }
    assert ledger.profiles == Backfilled(users, codes, updateFails);
    r := Ok(updated);
  }

  // Properties of a run.

  /** Profiles that already had a code are never changed, and a failed update leaves its profile as it was. */
  lemma BackfillKeepsExistingCodes(ps: seq<Profile>, codes: seq<string>, updateFails: seq<bool>)
    requires |codes| == |ps| && |updateFails| == |ps|
    ensures forall j :: 0 <= j < |ps| && (!NeedsCode(ps[j]) || updateFails[j]) ==>
      Backfilled(ps, codes, updateFails)[j] == ps[j]
    ensures forall j :: 0 <= j < |ps| && NeedsCode(ps[j]) && !updateFails[j] ==>
      Backfilled(ps, codes, updateFails)[j] == ps[j].(referralCode := Some(codes[j]))
    ensures ProfileIdsDistinct(ps) ==> ProfileIdsDistinct(Backfilled(ps, codes, updateFails))
  {
  }

  /** The count reported is the number of profiles whose code the run changed. */
  lemma {:induction false} UpdatesCountChangedProfiles(ps: seq<Profile>, codes: seq<string>, updateFails: seq<bool>, n: nat)
    requires |codes| == |ps| && |updateFails| == |ps| && n <= |ps|
    requires forall j :: 0 <= j < |codes| ==> |codes[j]| == CodeLength
    ensures Updates(ps, updateFails, n) == Changed(ps, Backfilled(ps, codes, updateFails), n)
  {
    if n > 0 {
      UpdatesCountChangedProfiles(ps, codes, updateFails, n - 1);
      var j := n - 1;
      if NeedsCode(ps[j]) && !updateFails[j] {
        assert Backfilled(ps, codes, updateFails)[j].referralCode == Some(codes[j]);
        assert |codes[j]| == CodeLength;
      }
    }
  }

  /** After a run in which every update succeeds, every profile holds a code. */
  lemma CleanRunFillsEveryProfile(ps: seq<Profile>, codes: seq<string>, updateFails: seq<bool>)
    requires |codes| == |ps| && |updateFails| == |ps|
    requires forall j :: 0 <= j < |codes| ==> |codes[j]| == CodeLength
    requires forall j :: 0 <= j < |updateFails| ==> !updateFails[j]
    ensures forall j :: 0 <= j < |ps| ==> !NeedsCode(Backfilled(ps, codes, updateFails)[j])
  {
    forall j | 0 <= j < |ps| ensures !NeedsCode(Backfilled(ps, codes, updateFails)[j]) {
      if NeedsCode(ps[j]) {
        assert |codes[j]| == CodeLength;
      }
    }
  }

  lemma {:induction false} NoUpdatesWhenAllFilled(ps: seq<Profile>, updateFails: seq<bool>, n: nat)
    requires n <= |ps| && n <= |updateFails|
    requires forall j :: 0 <= j < |ps| ==> !NeedsCode(ps[j])
    ensures Updates(ps, updateFails, n) == 0
  {
    if n > 0 {
      NoUpdatesWhenAllFilled(ps, updateFails, n - 1);
    }
  }

  /** A second run after a clean one updates no profile and changes nothing. */
  lemma SecondRunUpdatesNothing(ps: seq<Profile>, codes: seq<string>, codes2: seq<string>, updateFails2: seq<bool>)
    requires |codes| == |ps| && |codes2| == |ps| && |updateFails2| == |ps|
    requires forall j :: 0 <= j < |codes| ==> |codes[j]| == CodeLength
    ensures var once := Backfilled(ps, codes, seq(|ps|, _ => false));
      Updates(once, updateFails2, |ps|) == 0 && Backfilled(once, codes2, updateFails2) == once
  {
    var once := Backfilled(ps, codes, seq(|ps|, _ => false));
    CleanRunFillsEveryProfile(ps, codes, seq(|ps|, _ => false));
    NoUpdatesWhenAllFilled(once, updateFails2, |ps|);
  }
}
