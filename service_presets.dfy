/**
 * The constant table of shareable subscription plans and the structural facts the pages rely on:
 * unique ids, plan ids prefixed by their provider's id, and room for at least one member besides
 * the host on every plan.
 */
module ServicePresets {
  import opened Common

  /** One purchasable plan of a service; `priceCents` is the monthly price in cents. */
  datatype ServicePlan = ServicePlan(
    id: string,
    name: string,
    priceCents: nat,
    maxMembers: nat,
    description: string,
    requiresSameHousehold: Option<bool>)

  /** A subscription service and the plans that can be shared on it. */
  datatype ServiceProvider = ServiceProvider(
    id: string,
    name: string,
    plans: seq<ServicePlan>,
    termsUrl: Option<string>)

  /** The table `serviceProviders`, in its source order. Each entry is a named constant below. */
  const Catalogue: seq<ServiceProvider> := [
    Netflix, Spotify, Disney, Hbo, Crunchyroll, Duolingo, Youtube, Apple,
    Hulu, Paramount, Peacock, Showtime, Tidal, Xbox, Nintendo, Microsoft365,
    GoogleOne, Dropbox, Evernote, Masterclass, Skillshare, RosettaStone
  ]

  const Netflix: ServiceProvider := ServiceProvider(
    "netflix", "Netflix",
    [ ServicePlan(
        "netflix-standard-hd", "Standard", 1549, 2,
        "Watch in Full HD on 2 supported devices at a time",
        None),
      ServicePlan(
        "netflix-premium", "Premium", 2299, 4,
        "Watch in Ultra HD on 4 supported devices at a time",
        None)
    ],
    None)

  const Spotify: ServiceProvider := ServiceProvider(
    "spotify", "Spotify",
    [ ServicePlan(
        "spotify-duo", "Duo", 1499, 2,
        "2 Premium accounts for couples under one roof",
        None),
      ServicePlan(
        "spotify-family", "Family", 1699, 6,
        "6 Premium accounts for family members living under one roof",
        None)
    ],
    None)

  const Disney: ServiceProvider := ServiceProvider(
    "disney", "Disney+",
    [ ServicePlan(
        "disney-standard", "Standard", 799, 4,
        "Watch in Full HD on 4 supported devices at a time",
        None),
      ServicePlan(
        "disney-premium", "Premium", 1099, 4,
        "Watch in 4K UHD on 4 supported devices at a time",
        None)
    ],
    None)

  const Hbo: ServiceProvider := ServiceProvider(
    "hbo", "Max",
    [ ServicePlan(
        "hbo-with-ads", "With Ads", 999, 3,
        "Watch with limited ads on 3 supported devices at a time",
        None),
      ServicePlan(
        "hbo-ad-free", "Ad-Free", 1599, 3,
        "Watch without ads on 3 supported devices at a time",
        None),
      ServicePlan(
        "hbo-ultimate", "Ultimate", 1999, 3,
        "Watch in 4K UHD without ads on 3 supported devices at a time",
        None)
    ],
    None)

  const Crunchyroll: ServiceProvider := ServiceProvider(
    "crunchyroll", "Crunchyroll",
    [ ServicePlan(
        "crunchyroll-mega-fan", "Mega Fan", 999, 4,
        "Watch ad-free on 4 devices at a time",
        None)
    ],
    None)

  const Duolingo: ServiceProvider := ServiceProvider(
    "duolingo", "Duolingo",
    [ ServicePlan(
        "duolingo-family", "Family", 999, 6,
        "Ad-free learning experience for the whole family",
        None)
    ],
    None)

  const Youtube: ServiceProvider := ServiceProvider(
    "youtube", "YouTube Premium",
    [ ServicePlan(
        "youtube-family", "Family", 2299, 6,
        "Ad-free videos and music for the whole family",
        None)
    ],
    None)

  const Apple: ServiceProvider := ServiceProvider(
    "apple", "Apple One",
    [ ServicePlan(
        "apple-family", "Family", 2295, 6,
        "Apple Music, TV+, Arcade, and iCloud+ for the whole family",
        None)
    ],
    None)

  const Hulu: ServiceProvider := ServiceProvider(
    "hulu", "Hulu",
    [ ServicePlan(
        "hulu-basic", "Basic", 799, 2,
        "Watch with limited ads on 2 supported devices at a time",
        None),
      ServicePlan(
        "hulu-no-ads", "No Ads", 1799, 2,
        "Watch without ads on 2 supported devices at a time",
        None),
      ServicePlan(
        "hulu-disney-espn", "Hulu + Disney+ + ESPN+", 1499, 4,
        "Bundle of Hulu, Disney+, and ESPN+ with limited ads",
        None)
    ],
    None)

  const Paramount: ServiceProvider := ServiceProvider(
    "paramount", "Paramount+",
    [ ServicePlan(
        "paramount-essential", "Essential", 599, 3,
        "Watch with limited ads on 3 supported devices at a time",
        None),
      ServicePlan(
        "paramount-premium", "Premium", 1199, 3,
        "Watch without ads on 3 supported devices at a time",
        None)
    ],
    None)

  const Peacock: ServiceProvider := ServiceProvider(
    "peacock", "Peacock Premium",
    [ ServicePlan(
        "peacock-premium", "Premium", 599, 3,
        "Watch with limited ads on 3 supported devices at a time",
        None),
      ServicePlan(
        "peacock-premium-plus", "Premium Plus", 1199, 3,
        "Watch without ads on 3 supported devices at a time",
        None)
    ],
    None)

  const Showtime: ServiceProvider := ServiceProvider(
    "showtime", "Showtime",
    [ ServicePlan(
        "showtime-standalone", "Standalone", 1099, 3,
        "Watch Showtime content on 3 supported devices at a time",
        None),
      ServicePlan(
        "showtime-paramount-bundle", "Paramount+ Bundle", 1199, 3,
        "Bundle of Paramount+ Premium and Showtime",
        None)
    ],
    None)

  const Tidal: ServiceProvider := ServiceProvider(
    "tidal", "Tidal",
    [ ServicePlan(
        "tidal-family", "Family", 2999, 6,
        "High-fidelity music streaming for the whole family",
        None)
    ],
    None)

  const Xbox: ServiceProvider := ServiceProvider(
    "xbox", "Xbox Game Pass Ultimate",
    [ ServicePlan(
        "xbox-family", "Family", 2499, 5,
        "Share Game Pass Ultimate with up to 4 family members",
        None)
    ],
    None)

  const Nintendo: ServiceProvider := ServiceProvider(
    "nintendo", "Nintendo Switch Online",
    [ ServicePlan(
        "nintendo-family", "Family Membership", 3499, 8,
        "Online play and classic games for up to 8 Nintendo accounts",
        Some(true))
    ],
    Some("https://www.nintendo.com/switch/online-service/terms/"))

  const Microsoft365: ServiceProvider := ServiceProvider(
    "microsoft365", "Microsoft 365 Family",
    [ ServicePlan(
        "microsoft365-family", "Family", 9999, 6,
        "Office apps and cloud storage for up to 6 people",
        Some(true))
    ],
    Some("https://www.microsoft.com/en-us/servicesagreement/"))

  const GoogleOne: ServiceProvider := ServiceProvider(
    "googleone", "Google One",
    [ ServicePlan(
        "googleone-family", "Family", 999, 6,
        "Shared cloud storage and benefits for the family",
        None)
    ],
    None)

  const Dropbox: ServiceProvider := ServiceProvider(
    "dropbox", "Dropbox",
    [ ServicePlan(
        "dropbox-family", "Family", 1699, 6,
        "Shared cloud storage for the whole family",
        None)
    ],
    None)

  const Evernote: ServiceProvider := ServiceProvider(
    "evernote", "Evernote",
    [ ServicePlan(
        "evernote-teams", "Teams", 1499, 5,
        "Note-taking and collaboration for teams",
        None)
    ],
    None)

  const Masterclass: ServiceProvider := ServiceProvider(
    "masterclass", "MasterClass",
    [ ServicePlan(
        "masterclass-duo", "Duo", 18000, 2,
        "Access to all classes for two people",
        None)
    ],
    None)

  const Skillshare: ServiceProvider := ServiceProvider(
    "skillshare", "Skillshare",
    [ ServicePlan(
        "skillshare-teams", "Teams", 15900, 5,
        "Creative learning for teams",
        None)
    ],
    None)

  const RosettaStone: ServiceProvider := ServiceProvider(
    "rosettastone", "Rosetta Stone",
    [ ServicePlan(
        "rosettastone-family", "Family", 17900, 5,
        "Language learning for the whole family",
        None)
    ],
    None)

  /** The table lists twenty-two providers. */
  lemma TwentyTwoProviders()
    ensures |Catalogue| == 22
  {
  }

  // Per-entry facts. Each is checked on one entry at a time; CatalogueWellFormed gathers them.

  /** The entry's id has no dash, and each plan id is that id, a dash and a non-empty rest. */
  predicate PlanIdsPrefixed(p: ServiceProvider) {
    && '-' !in p.id
    && forall k :: 0 <= k < |p.plans| ==> p.id + "-" <= p.plans[k].id && |p.id| + 1 < |p.plans[k].id|
  }

  predicate PlanIdsDistinctWithin(p: ServiceProvider) {
    forall k, l :: 0 <= k < l < |p.plans| ==> p.plans[k].id != p.plans[l].id
  }

  /** At least one plan, and every plan has room for the host and between one and seven others. */
  predicate PlansShareable(p: ServiceProvider) {
    |p.plans| >= 1 && forall k :: 0 <= k < |p.plans| ==> 2 <= p.plans[k].maxMembers <= 8
  }

  predicate IsHouseholdProvider(id: string) {
    id == "nintendo" || id == "microsoft365"
  }

  /** `terms_url` and `requires_same_household` are present exactly on the two household entries. */
  predicate HouseholdFieldsPlaced(p: ServiceProvider) {
    && (p.termsUrl.Some? <==> IsHouseholdProvider(p.id))
    && forall k :: 0 <= k < |p.plans| ==>
         (p.plans[k].requiresSameHousehold.Some? <==> IsHouseholdProvider(p.id))
  }

  predicate WellFormedProvider(p: ServiceProvider) {
    PlanIdsPrefixed(p) && PlanIdsDistinctWithin(p) && PlansShareable(p) && HouseholdFieldsPlaced(p)
  }

  lemma NetflixWellFormed()
    ensures PlanIdsPrefixed(Netflix) && PlanIdsDistinctWithin(Netflix)
    ensures PlansShareable(Netflix) && HouseholdFieldsPlaced(Netflix)
  {
  }

  lemma SpotifyWellFormed()
    ensures PlanIdsPrefixed(Spotify) && PlanIdsDistinctWithin(Spotify)
    ensures PlansShareable(Spotify) && HouseholdFieldsPlaced(Spotify)
  {
  }

  lemma DisneyWellFormed()
    ensures PlanIdsPrefixed(Disney) && PlanIdsDistinctWithin(Disney)
    ensures PlansShareable(Disney) && HouseholdFieldsPlaced(Disney)
  {
  }

  lemma HboWellFormed()
    ensures PlanIdsPrefixed(Hbo) && PlanIdsDistinctWithin(Hbo)
    ensures PlansShareable(Hbo) && HouseholdFieldsPlaced(Hbo)
  {
  }

  lemma CrunchyrollWellFormed()
    ensures PlanIdsPrefixed(Crunchyroll) && PlanIdsDistinctWithin(Crunchyroll)
    ensures PlansShareable(Crunchyroll) && HouseholdFieldsPlaced(Crunchyroll)
  {
  }

  lemma DuolingoWellFormed()
    ensures PlanIdsPrefixed(Duolingo) && PlanIdsDistinctWithin(Duolingo)
    ensures PlansShareable(Duolingo) && HouseholdFieldsPlaced(Duolingo)
  {
  }

  lemma YoutubeWellFormed()
    ensures PlanIdsPrefixed(Youtube) && PlanIdsDistinctWithin(Youtube)
    ensures PlansShareable(Youtube) && HouseholdFieldsPlaced(Youtube)
  {
  }

  lemma AppleWellFormed()
    ensures PlanIdsPrefixed(Apple) && PlanIdsDistinctWithin(Apple)
    ensures PlansShareable(Apple) && HouseholdFieldsPlaced(Apple)
  {
  }

  lemma HuluWellFormed()
    ensures PlanIdsPrefixed(Hulu) && PlanIdsDistinctWithin(Hulu)
    ensures PlansShareable(Hulu) && HouseholdFieldsPlaced(Hulu)
  {
  }

  lemma ParamountWellFormed()
    ensures PlanIdsPrefixed(Paramount) && PlanIdsDistinctWithin(Paramount)
    ensures PlansShareable(Paramount) && HouseholdFieldsPlaced(Paramount)
  {
  }

  lemma PeacockWellFormed()
    ensures PlanIdsPrefixed(Peacock) && PlanIdsDistinctWithin(Peacock)
    ensures PlansShareable(Peacock) && HouseholdFieldsPlaced(Peacock)
  {
  }

  lemma ShowtimeWellFormed()
    ensures PlanIdsPrefixed(Showtime) && PlanIdsDistinctWithin(Showtime)
    ensures PlansShareable(Showtime) && HouseholdFieldsPlaced(Showtime)
  {
  }

  lemma TidalWellFormed()
    ensures PlanIdsPrefixed(Tidal) && PlanIdsDistinctWithin(Tidal)
    ensures PlansShareable(Tidal) && HouseholdFieldsPlaced(Tidal)
  {
  }

  lemma XboxWellFormed()
    ensures PlanIdsPrefixed(Xbox) && PlanIdsDistinctWithin(Xbox)
    ensures PlansShareable(Xbox) && HouseholdFieldsPlaced(Xbox)
  {
  }

  lemma NintendoWellFormed()
    ensures PlanIdsPrefixed(Nintendo) && PlanIdsDistinctWithin(Nintendo)
    ensures PlansShareable(Nintendo) && HouseholdFieldsPlaced(Nintendo)
  {
  }

  lemma Microsoft365WellFormed()
    ensures PlanIdsPrefixed(Microsoft365) && PlanIdsDistinctWithin(Microsoft365)
    ensures PlansShareable(Microsoft365) && HouseholdFieldsPlaced(Microsoft365)
  {
  }

  lemma GoogleOneWellFormed()
    ensures PlanIdsPrefixed(GoogleOne) && PlanIdsDistinctWithin(GoogleOne)
    ensures PlansShareable(GoogleOne) && HouseholdFieldsPlaced(GoogleOne)
  {
  }

  lemma DropboxWellFormed()
    ensures PlanIdsPrefixed(Dropbox) && PlanIdsDistinctWithin(Dropbox)
    ensures PlansShareable(Dropbox) && HouseholdFieldsPlaced(Dropbox)
  {
  }

  lemma EvernoteWellFormed()
    ensures PlanIdsPrefixed(Evernote) && PlanIdsDistinctWithin(Evernote)
    ensures PlansShareable(Evernote) && HouseholdFieldsPlaced(Evernote)
  {
  }

  lemma MasterclassWellFormed()
    ensures PlanIdsPrefixed(Masterclass) && PlanIdsDistinctWithin(Masterclass)
    ensures PlansShareable(Masterclass) && HouseholdFieldsPlaced(Masterclass)
  {
  }

  lemma SkillshareWellFormed()
    ensures PlanIdsPrefixed(Skillshare) && PlanIdsDistinctWithin(Skillshare)
    ensures PlansShareable(Skillshare) && HouseholdFieldsPlaced(Skillshare)
  {
  }

  lemma RosettaStoneWellFormed()
    ensures PlanIdsPrefixed(RosettaStone) && PlanIdsDistinctWithin(RosettaStone)
    ensures PlansShareable(RosettaStone) && HouseholdFieldsPlaced(RosettaStone)
  {
  }

  lemma CatalogueWellFormed()
    ensures forall i :: 0 <= i < |Catalogue| ==> WellFormedProvider(Catalogue[i])
  {
    NetflixWellFormed();
    SpotifyWellFormed();
    DisneyWellFormed();
    HboWellFormed();
    CrunchyrollWellFormed();
    DuolingoWellFormed();
    YoutubeWellFormed();
    AppleWellFormed();
    HuluWellFormed();
    ParamountWellFormed();
    PeacockWellFormed();
    ShowtimeWellFormed();
    TidalWellFormed();
    XboxWellFormed();
    NintendoWellFormed();
    Microsoft365WellFormed();
    GoogleOneWellFormed();
    DropboxWellFormed();
    EvernoteWellFormed();
    MasterclassWellFormed();
    SkillshareWellFormed();
    RosettaStoneWellFormed();
  }

  /** Positions (i, k) that name the k-th plan of the i-th provider. */
  predicate IsPlanAt(i: int, k: int) {
    0 <= i < |Catalogue| && 0 <= k < |Catalogue[i].plans|
  }

  /** Provider ids are pairwise distinct. */
  lemma ProviderIdsDistinct()
    ensures forall i, j :: 0 <= i < j < |Catalogue| ==> Catalogue[i].id != Catalogue[j].id
  {
    forall i, j | 0 <= i < j < |Catalogue| ensures Catalogue[i].id != Catalogue[j].id {
      ProviderIdUniqueAfter(i);
    }
  }

  lemma ProviderIdUniqueAfter(i: nat)
    requires i < |Catalogue|
    ensures forall j :: i < j < |Catalogue| ==> Catalogue[j].id != Catalogue[i].id
  {
  }

  /** Every plan id starts with its provider's id followed by a dash. */
  lemma PlanIdsStartWithProviderId()
    ensures forall i, k :: IsPlanAt(i, k) ==> Catalogue[i].id + "-" <= Catalogue[i].plans[k].id
  {
    CatalogueWellFormed();
  }

  lemma EveryProviderHasAPlan()
    ensures forall i :: 0 <= i < |Catalogue| ==> |Catalogue[i].plans| >= 1
  {
    CatalogueWellFormed();
  }

  /** Every plan admits 2 to 8 members, so the range 1 .. maxMembers - 1 of open spaces is never empty. */
  lemma MaxMembersBetweenTwoAndEight()
    ensures forall i, k :: IsPlanAt(i, k) ==> 2 <= Catalogue[i].plans[k].maxMembers <= 8
  {
    CatalogueWellFormed();
  }

  /** Only the Nintendo and Microsoft 365 entries carry a terms link and a same-household flag. */
  lemma HouseholdFieldsOnlyOnTwoEntries()
    ensures forall i :: 0 <= i < |Catalogue| ==>
      (Catalogue[i].termsUrl.Some? <==> Catalogue[i].id in {"nintendo", "microsoft365"})
    ensures forall i, k :: IsPlanAt(i, k) ==>
      (Catalogue[i].plans[k].requiresSameHousehold.Some? <==> Catalogue[i].id in {"nintendo", "microsoft365"})
  {
    CatalogueWellFormed();
  }

  /** `a + "-"` is a prefix of `x`: `x` agrees with `a` up to `|a|` and has a dash right after. */
  lemma DashPrefixAt(a: string, x: string)
    requires a + "-" <= x
    ensures |a| < |x| && x[|a|] == '-'
    ensures forall k :: 0 <= k < |a| ==> x[k] == a[k]
  {
    assert (a + "-")[|a|] == '-';
    assert forall k :: 0 <= k < |a| ==> (a + "-")[k] == a[k];
  }

  /** Two prefixes `a-` and `b-` of one string, with no dash in `a` or `b`, have `a == b`. */
  lemma DashPrefixDetermines(a: string, b: string, x: string)
    requires '-' !in a && '-' !in b
    requires a + "-" <= x && b + "-" <= x
    ensures a == b
  {
    DashPrefixAt(a, x);
    DashPrefixAt(b, x);
  }

  /** Plan ids are pairwise distinct across the whole catalogue, not only within one provider. */
  lemma PlanIdsDistinct()
    ensures forall i1, k1, i2, k2 :: IsPlanAt(i1, k1) && IsPlanAt(i2, k2) && (i1, k1) != (i2, k2) ==>
      Catalogue[i1].plans[k1].id != Catalogue[i2].plans[k2].id
  {
    CatalogueWellFormed();
    ProviderIdsDistinct();
    forall i1, k1, i2, k2 | IsPlanAt(i1, k1) && IsPlanAt(i2, k2) && (i1, k1) != (i2, k2)
      ensures Catalogue[i1].plans[k1].id != Catalogue[i2].plans[k2].id
    {
      var p1, p2 := Catalogue[i1], Catalogue[i2];
      assert WellFormedProvider(p1) && WellFormedProvider(p2);
      if i1 == i2 {
        assert PlanIdsDistinctWithin(p1);
        if k1 < k2 { assert p1.plans[k1].id != p1.plans[k2].id; }
        else { assert p1.plans[k2].id != p1.plans[k1].id; }
      } else if p1.plans[k1].id == p2.plans[k2].id {
        assert PlanIdsPrefixed(p1) && PlanIdsPrefixed(p2);
        DashPrefixDetermines(p1.id, p2.id, p1.plans[k1].id);
        assert false;
      }
    }
  }

  // Lookups by id, as `Array.prototype.find` does them: the first entry whose id matches.

  function FindProvider(ps: seq<ServiceProvider>, id: string): (r: Option<ServiceProvider>)
    ensures r.Some? ==> r.value in ps && r.value.id == id
    ensures r.Some? ==> exists i :: 0 <= i < |ps| && ps[i] == r.value && forall j :: 0 <= j < i ==> ps[j].id != id
    ensures r.None? ==> forall i :: 0 <= i < |ps| ==> ps[i].id != id
  {
    if ps == [] then None
    else if ps[0].id == id then Some(ps[0])
    else FindProvider(ps[1..], id)
  }

  function FindPlan(plans: seq<ServicePlan>, id: string): (r: Option<ServicePlan>)
    ensures r.Some? ==> r.value in plans && r.value.id == id
    ensures r.Some? ==> exists k :: 0 <= k < |plans| && plans[k] == r.value && forall j :: 0 <= j < k ==> plans[j].id != id
    ensures r.None? ==> forall k :: 0 <= k < |plans| ==> plans[k].id != id
  {
    if plans == [] then None
    else if plans[0].id == id then Some(plans[0])
    else FindPlan(plans[1..], id)
  }

  /** The provider-then-plan lookup over a table of providers. */
  function LookupPlanIn(ps: seq<ServiceProvider>, providerId: string, planId: string): (r: Option<ServicePlan>)
    ensures r.Some? ==> r.value.id == planId && exists p :: p in ps && p.id == providerId && r.value in p.plans
  {
    match FindProvider(ps, providerId)
    case None => None
    case Some(p) => FindPlan(p.plans, planId)
  }

  /** The provider-then-plan lookup the waitlist registration page performs on its query parameters. */
  function LookupPlan(providerId: string, planId: string): (r: Option<ServicePlan>)
    ensures r.Some? ==> r.value.id == planId && exists p :: p in Catalogue && p.id == providerId && r.value in p.plans
  {
    LookupPlanIn(Catalogue, providerId, planId)
  }

  lemma {:induction false} FindProviderAt(ps: seq<ServiceProvider>, i: nat)
    requires i < |ps|
    requires forall a, b :: 0 <= a < b < |ps| ==> ps[a].id != ps[b].id
    ensures FindProvider(ps, ps[i].id) == Some(ps[i])
  {
    if i > 0 {
      assert ps[0].id != ps[i].id;
      FindProviderAt(ps[1..], i - 1);
    }
  }

  lemma {:induction false} FindPlanAt(plans: seq<ServicePlan>, k: nat)
    requires k < |plans|
    requires forall a, b :: 0 <= a < b < |plans| ==> plans[a].id != plans[b].id
    ensures FindPlan(plans, plans[k].id) == Some(plans[k])
  {
    if k > 0 {
      assert plans[0].id != plans[k].id;
      FindPlanAt(plans[1..], k - 1);
    }
  }

  /** With distinct provider ids and plan ids distinct within each provider, every plan is found by its two ids. */
  lemma LookupFindsEveryPlan(ps: seq<ServiceProvider>)
    requires forall a, b :: 0 <= a < b < |ps| ==> ps[a].id != ps[b].id
    requires forall i :: 0 <= i < |ps| ==> PlanIdsDistinctWithin(ps[i])
    ensures forall i, k :: 0 <= i < |ps| && 0 <= k < |ps[i].plans| ==>
      LookupPlanIn(ps, ps[i].id, ps[i].plans[k].id) == Some(ps[i].plans[k])
  {
    forall i, k | 0 <= i < |ps| && 0 <= k < |ps[i].plans|
      ensures LookupPlanIn(ps, ps[i].id, ps[i].plans[k].id) == Some(ps[i].plans[k])
    {
      FindProviderAt(ps, i);
      assert PlanIdsDistinctWithin(ps[i]);
      FindPlanAt(ps[i].plans, k);
    }
  }

  /** With plan ids distinct across the table, whatever the lookup finds is the only plan with the requested id. */
  lemma LookupResultUnique(ps: seq<ServiceProvider>)
    requires forall i1, k1, i2, k2 ::
      (0 <= i1 < |ps| && 0 <= k1 < |ps[i1].plans| && 0 <= i2 < |ps| && 0 <= k2 < |ps[i2].plans| &&
       (i1, k1) != (i2, k2)) ==>
      ps[i1].plans[k1].id != ps[i2].plans[k2].id
    ensures forall providerId, planId, i, k ::
      (LookupPlanIn(ps, providerId, planId).Some? && 0 <= i < |ps| && 0 <= k < |ps[i].plans| &&
       ps[i].plans[k].id == planId) ==>
      LookupPlanIn(ps, providerId, planId) == Some(ps[i].plans[k])
  {
    forall providerId, planId, i, k |
      LookupPlanIn(ps, providerId, planId).Some? && 0 <= i < |ps| && 0 <= k < |ps[i].plans| &&
      ps[i].plans[k].id == planId
      ensures LookupPlanIn(ps, providerId, planId) == Some(ps[i].plans[k])
    {
      var p := FindProvider(ps, providerId).value;
      var i' :| 0 <= i' < |ps| && ps[i'] == p;
      var plan := FindPlan(p.plans, planId).value;
      var k' :| 0 <= k' < |p.plans| && p.plans[k'] == plan;
      assert ps[i'].plans[k'].id == ps[i].plans[k].id;
    }
  }

  /**
   * Looking a plan up by its provider's id and its own id finds exactly that plan, and whatever
   * the lookup finds is the only plan in the catalogue with the requested id.
   */
  lemma LookupPlanFindsTheUniquePlan()
    ensures forall i, k :: IsPlanAt(i, k) ==>
      LookupPlan(Catalogue[i].id, Catalogue[i].plans[k].id) == Some(Catalogue[i].plans[k])
    ensures forall providerId, planId, i, k ::
      LookupPlan(providerId, planId).Some? && IsPlanAt(i, k) && Catalogue[i].plans[k].id == planId ==>
      LookupPlan(providerId, planId) == Some(Catalogue[i].plans[k])
  {
    CatalogueWellFormed();
    ProviderIdsDistinct();
    PlanIdsDistinct();
    LookupFindsEveryPlan(Catalogue);
    LookupResultUnique(Catalogue);
  }
}
