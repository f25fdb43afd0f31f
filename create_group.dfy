/**
 * The create-group wizard: choosing a service, then a plan, then entering the remaining spaces and
 * a location, and submitting. Submitting validates the input, inserts the group and a `join`
 * activity, and navigates to `/explore`. The two inserts go to a remote store; whether either of
 * them throws is an input.
 */
module CreateGroup {
  import opened Common
  import ServicePresets
  import Decimal

  /** What `trim` removes: the white-space and line-terminator characters of JavaScript. */
  predicate IsTrimmed(c: char) {
    var n := c as int;
    (0x9 <= n <= 0xD) || n == 0x20 || n == 0xA0 || n == 0x1680 || (0x2000 <= n <= 0x200A) ||
    n == 0x2028 || n == 0x2029 || n == 0x202F || n == 0x205F || n == 0x3000 || n == 0xFEFF
  }

  function TrimStart(s: string): (r: string)
    ensures |r| <= |s|
  {
    if s != [] && IsTrimmed(s[0]) then TrimStart(s[1..]) else s
  }

  function TrimEnd(s: string): (r: string)
    ensures |r| <= |s|
  {
    if s != [] && IsTrimmed(s[|s| - 1]) then TrimEnd(s[..|s| - 1]) else s
  }

  /** `String.prototype.trim`. */
  function Trim(s: string): (r: string)
    ensures |r| <= |s|
  {
    TrimEnd(TrimStart(s))
  }

  /** `!location.trim()`: trimming leaves the empty string. */
  predicate IsBlank(s: string): (b: bool)
    ensures s == [] ==> b
  {
    Trim(s) == []
  }

  /** Trimming the start drops a run of trimmed characters and stops at the first other one. */
  lemma {:induction false} TrimStartDropsLeadingRun(s: string)
    ensures |TrimStart(s)| <= |s| && TrimStart(s) == s[|s| - |TrimStart(s)|..]
    ensures TrimStart(s) != [] ==> !IsTrimmed(TrimStart(s)[0])
    ensures forall k :: 0 <= k < |s| - |TrimStart(s)| ==> IsTrimmed(s[k])
  {
    if s != [] && IsTrimmed(s[0]) {
      var r := TrimStart(s[1..]);
      TrimStartDropsLeadingRun(s[1..]);
      assert s[1..][|s| - 1 - |r|..] == s[|s| - |r|..];
      assert forall k :: 1 <= k < |s| ==> s[k] == s[1..][k - 1];
    }
  }

  /** Trimming the end drops a run of trimmed characters and stops at the last other one. */
  lemma {:induction false} TrimEndDropsTrailingRun(s: string)
    ensures |TrimEnd(s)| <= |s| && TrimEnd(s) == s[..|TrimEnd(s)|]
    ensures TrimEnd(s) != [] ==> !IsTrimmed(TrimEnd(s)[|TrimEnd(s)| - 1])
    ensures forall k :: |TrimEnd(s)| <= k < |s| ==> IsTrimmed(s[k])
  {
    if s != [] && IsTrimmed(s[|s| - 1]) {
      var r := TrimEnd(s[..|s| - 1]);
      TrimEndDropsTrailingRun(s[..|s| - 1]);
      assert s[..|s| - 1][..|r|] == s[..|r|];
      assert forall k :: 0 <= k < |s| - 1 ==> s[k] == s[..|s| - 1][k];
    }
  }

  /** A text is blank exactly when every character of it is one that `trim` removes. */
  lemma BlankIffAllTrimmed(s: string)
    ensures IsBlank(s) <==> forall k :: 0 <= k < |s| ==> IsTrimmed(s[k])
  {
    var t := TrimStart(s);
    TrimStartDropsLeadingRun(s);
    TrimEndDropsTrailingRun(t);
    assert forall k :: 0 <= k < |t| ==> t[k] == s[|s| - |t| + k];
  }

  datatype Group = Group(
    id: nat,
    name: string,
    description: string,
    maxMembers: nat,
    priceCents: nat,
    hostId: string,
    status: string,
    remainingSpaces: int,
    location: string)

  datatype Activity = Activity(kind: string, description: string, userId: string, groupId: nat)

  /** Which insert, if any, the remote store rejects. */
  datatype StoreFailure = NoFailure | GroupInsertFails | ActivityInsertFails

  const LocationMessage := "Please enter a location"
  const FailureMessage := "Failed to create group. Please try again."

  /** The range error, which is never mistaken for the location error. */
  function RangeMessage(maxMembers: int): (m: string)
    ensures m != LocationMessage
  {
    "Please enter a valid number of remaining spaces (1-" + Decimal.IntToText(maxMembers - 1) + ")"
  }

  /** A template literal's rendering of an optional provider's name. */
  function ProviderName(provider: Option<ServicePresets.ServiceProvider>): string {
    if provider.Some? then provider.value.name else "undefined"
  }

  /** The input checks of the submit handler, in their order: the spaces range, then the location. */
  function Validate(plan: ServicePresets.ServicePlan, remainingSpaces: int, location: string): (r: Option<string>)
    ensures r.None? <==> 1 <= remainingSpaces <= plan.maxMembers - 1 && !IsBlank(location)
    ensures r.Some? && 1 <= remainingSpaces <= plan.maxMembers - 1 ==> r.value == LocationMessage
    ensures !(1 <= remainingSpaces <= plan.maxMembers - 1) ==> r == Some(RangeMessage(plan.maxMembers))
  {
    if remainingSpaces <= 0 || remainingSpaces > plan.maxMembers - 1 then Some(RangeMessage(plan.maxMembers))
    else if IsBlank(location) then Some(LocationMessage)
    else None
  }

  /** The group row the submit handler inserts. */
  function NewGroup(id: nat, providerName: string, plan: ServicePresets.ServicePlan, hostId: string,
                    remainingSpaces: int, location: string): Group
  {
    Group(id, providerName + " " + plan.name, plan.description + " (Location: " + location + ")",
          plan.maxMembers, plan.priceCents, hostId, "active", remainingSpaces, location)
  }

  /** The activity row recorded for a created group. */
  function JoinActivity(group: Group, providerName: string, planName: string): Activity {
    Activity("join", "Created " + providerName + " " + planName + " group in " + group.location,
             group.hostId, group.id)
  }

  datatype PageState = PageState(
    user: Option<string>,
    isLoading: bool,
    error: Option<string>,
    selectedProvider: Option<ServicePresets.ServiceProvider>,
    selectedPlan: Option<ServicePresets.ServicePlan>,
    remainingSpaces: int,
    location: string,
    groups: seq<Group>,
    activities: seq<Activity>,
    navigatedTo: Option<string>)

  /** A plan is only ever chosen from the selected provider's plans. */
  predicate PlanFromProvider(s: PageState) {
    s.selectedPlan.Some? ==> s.selectedProvider.Some? && s.selectedPlan.value in s.selectedProvider.value.plans
  }

  /** The page's state after the submit button's handler has run. */
  function SubmitStep(s: PageState, failure: StoreFailure, newGroupId: nat): PageState
  {
    if s.user.None? || s.selectedPlan.None? then s
    else
      var plan := s.selectedPlan.value;
      var verdict := Validate(plan, s.remainingSpaces, s.location);
      if verdict.Some? then s.(isLoading := false, error := verdict)
      else if failure == GroupInsertFails then s.(isLoading := false, error := Some(FailureMessage))
      else
        var name := ProviderName(s.selectedProvider);
        var group := NewGroup(newGroupId, name, plan, s.user.value, s.remainingSpaces, s.location);
        if failure == ActivityInsertFails then
          s.(isLoading := false, error := Some(FailureMessage), groups := s.groups + [group])
        else
          s.(isLoading := false, error := None, groups := s.groups + [group],
             activities := s.activities + [JoinActivity(group, name, plan.name)],
             navigatedTo := Some("/explore"))
  }

  /** Without a signed-in user or a chosen plan, submitting does nothing at all. */
  lemma SubmitNeedsUserAndPlan(s: PageState, failure: StoreFailure, newGroupId: nat)
    requires s.user.None? || s.selectedPlan.None?
    ensures SubmitStep(s, failure, newGroupId) == s
  {
  }

  /** Submitting leaves the selections and the entered details alone and always ends with loading off. */
  lemma SubmitKeepsSelection(s: PageState, failure: StoreFailure, newGroupId: nat)
    requires s.user.Some? && s.selectedPlan.Some?
    ensures var r := SubmitStep(s, failure, newGroupId);
      !r.isLoading && r.user == s.user && r.selectedProvider == s.selectedProvider &&
      r.selectedPlan == s.selectedPlan && r.remainingSpaces == s.remainingSpaces && r.location == s.location
  {
  }

  /** Invalid input is reported, the spaces check first, and nothing is created. */
  lemma SubmitRejectsInvalidInput(s: PageState, failure: StoreFailure, newGroupId: nat)
    requires s.user.Some? && s.selectedPlan.Some?
    requires Validate(s.selectedPlan.value, s.remainingSpaces, s.location).Some?
    ensures var r := SubmitStep(s, failure, newGroupId);
      r.error == Validate(s.selectedPlan.value, s.remainingSpaces, s.location) &&
      r.groups == s.groups && r.activities == s.activities && r.navigatedTo == s.navigatedTo
  {
  }

  /**
   * A store failure is reported with the generic message and the page stays. A failed activity
   * insert comes after the group insert, so the group stays created.
   */
  lemma SubmitReportsStoreFailure(s: PageState, failure: StoreFailure, newGroupId: nat)
    requires s.user.Some? && s.selectedPlan.Some?
    requires Validate(s.selectedPlan.value, s.remainingSpaces, s.location).None?
    requires failure != NoFailure
    ensures var r := SubmitStep(s, failure, newGroupId);
      r.error == Some(FailureMessage) && r.activities == s.activities && r.navigatedTo == s.navigatedTo &&
      r.groups == s.groups + (if failure == ActivityInsertFails then
        [NewGroup(newGroupId, ProviderName(s.selectedProvider), s.selectedPlan.value, s.user.value, s.remainingSpaces, s.location)]
      else [])
  {
  }

  /**
   * Valid input with a working store creates one active group for the plan, hosted by the user,
   * with the entered spaces and location, then one `join` activity for it, and moves to `/explore`.
   */
  lemma SubmitCreatesGroup(s: PageState, newGroupId: nat)
    requires s.user.Some? && s.selectedPlan.Some?
    requires Validate(s.selectedPlan.value, s.remainingSpaces, s.location).None?
    ensures var r := SubmitStep(s, NoFailure, newGroupId);
      |r.groups| == |s.groups| + 1 && r.groups[..|s.groups|] == s.groups &&
      r.error.None? && r.navigatedTo == Some("/explore")
    ensures var g := SubmitStep(s, NoFailure, newGroupId).groups[|s.groups|];
      g.id == newGroupId && g.hostId == s.user.value && g.status == "active" &&
      g.name == ProviderName(s.selectedProvider) + " " + s.selectedPlan.value.name &&
      g.maxMembers == s.selectedPlan.value.maxMembers && g.priceCents == s.selectedPlan.value.priceCents &&
      g.remainingSpaces == s.remainingSpaces && g.location == s.location &&
      1 <= g.remainingSpaces < g.maxMembers
    ensures var r := SubmitStep(s, NoFailure, newGroupId);
      r.activities == s.activities + [Activity("join",
        "Created " + r.groups[|s.groups|].name + " group in " + s.location, s.user.value, newGroupId)]
  {
    var name := ProviderName(s.selectedProvider);
    assert "Created " + name + " " + s.selectedPlan.value.name + " group in " + s.location
        == "Created " + (name + " " + s.selectedPlan.value.name) + " group in " + s.location;
  }
  /**
   * On a page whose plan was chosen from the selected provider, the group created is named after
   * that provider's name, never `undefined`, and its plan is one of that provider's plans.
   */
  lemma SubmitNamesGroupAfterProvider(s: PageState, newGroupId: nat)
    requires PlanFromProvider(s)
    requires s.user.Some? && s.selectedPlan.Some?
    requires Validate(s.selectedPlan.value, s.remainingSpaces, s.location).None?
    ensures s.selectedProvider.Some? && s.selectedPlan.value in s.selectedProvider.value.plans
    ensures SubmitStep(s, NoFailure, newGroupId).groups ==
      s.groups + [NewGroup(newGroupId, s.selectedProvider.value.name, s.selectedPlan.value, s.user.value,
                           s.remainingSpaces, s.location)]
    ensures SubmitStep(s, NoFailure, newGroupId).groups[|s.groups|].name ==
      s.selectedProvider.value.name + " " + s.selectedPlan.value.name
  {
  }

  class CreateGroupPage {
    var user: Option<string>
    var isLoading: bool
    var error: Option<string>
    var selectedProvider: Option<ServicePresets.ServiceProvider>
    var selectedPlan: Option<ServicePresets.ServicePlan>
    var remainingSpaces: int
    var location: string
    var groups: seq<Group>
    var activities: seq<Activity>
    var navigatedTo: Option<string>

    function State(): PageState
      reads this
    {
      PageState(user, isLoading, error, selectedProvider, selectedPlan, remainingSpaces, location,
                groups, activities, navigatedTo)
    }

    predicate Valid()
      reads this
    {
      PlanFromProvider(State())
    }

    /** The page as first rendered for the signed-in user, if any. */
    constructor(user: Option<string>)
      ensures Valid()
      ensures State() == PageState(user, false, None, None, None, 0, "US", [], [], None)
    {
      this.user := user;
      isLoading := false;
      error := None;
      selectedProvider := None;
      selectedPlan := None;
      remainingSpaces := 0;
      location := "US";
      groups := [];
      activities := [];
      navigatedTo := None;
    }

    /** `handleSelectProvider`: a new service discards the plan and resets the details. */
    method SelectProvider(provider: ServicePresets.ServiceProvider)
      modifies this
      ensures Valid()
      ensures State() == old(State()).(selectedProvider := Some(provider), selectedPlan := None,
                                        remainingSpaces := 0, location := "US")
    {
      selectedProvider := Some(provider);
      selectedPlan := None;
      remainingSpaces := 0;
      location := "US";
    }

    /** `handleSelectPlan`: the spaces default to the top of the valid range. */
    method SelectPlan(plan: ServicePresets.ServicePlan)
      requires selectedProvider.Some? && plan in selectedProvider.value.plans
      modifies this
      ensures Valid()
      ensures State() == old(State()).(selectedPlan := Some(plan), remainingSpaces := plan.maxMembers - 1)
    {
      selectedPlan := Some(plan);
      remainingSpaces := plan.maxMembers - 1;
    }

    /** "Back to Services", offered while no plan is selected. */
    method BackToServices()
      requires selectedPlan.None?
      modifies this
      ensures Valid()
      ensures State() == old(State()).(selectedProvider := None)
    {
      selectedProvider := None;
    }

    /** "Back to Plans". */
    method BackToPlans()
      requires Valid()
      modifies this
      ensures Valid()
      ensures State() == old(State()).(selectedPlan := None)
    {
      selectedPlan := None;
    }

    method SetRemainingSpaces(n: int)
      requires Valid()
      modifies this
      ensures Valid()
      ensures State() == old(State()).(remainingSpaces := n)
    {
      remainingSpaces := n;
    }

    method SetLocation(code: string)
      requires Valid()
      modifies this
      ensures Valid()
      ensures State() == old(State()).(location := code)
    {
      location := code;
    }

    /** `handleCreateGroup`. */
    method Submit(failure: StoreFailure, newGroupId: nat)
      requires Valid()
      modifies this
      ensures Valid()
      ensures State() == SubmitStep(old(State()), failure, newGroupId)
    {
      if user.None? || selectedPlan.None? {
        return;
      }
      ghost var before := State();
      var plan := selectedPlan.value;
      isLoading := true;
      error := None;
      if remainingSpaces <= 0 || remainingSpaces > plan.maxMembers - 1 {
        error := Some(RangeMessage(plan.maxMembers));
        isLoading := false;
        assert State() == before.(isLoading := false, error := Validate(plan, remainingSpaces, location));
        return;
      }
      if IsBlank(location) {
        error := Some(LocationMessage);
        isLoading := false;
        assert State() == before.(isLoading := false, error := Validate(plan, remainingSpaces, location));
        return;
      }
      assert Validate(plan, remainingSpaces, location).None?;
      if failure == GroupInsertFails {
        error := Some(FailureMessage);
        isLoading := false;
        return;
      }
      var name := ProviderName(selectedProvider);
      var group := NewGroup(newGroupId, name, plan, user.value, remainingSpaces, location);
      groups := groups + [group];
      if failure == ActivityInsertFails {
        error := Some(FailureMessage);
        isLoading := false;
        return;
      }
      activities := activities + [JoinActivity(group, name, plan.name)];
      navigatedTo := Some("/explore");
      isLoading := false;
    }
  }

  // Properties.

  /** The default a plan selection puts in the spaces field passes the range check whenever the plan has room for two. */
  lemma DefaultSpacesInRange(plan: ServicePresets.ServicePlan)
    requires plan.maxMembers >= 2
    ensures Validate(plan, plan.maxMembers - 1, "US").None?
  {
    assert !IsTrimmed("US"[0]);
    BlankIffAllTrimmed("US");
  }

  /** For every plan of the catalogue, the range 1..max−1 is non-empty and its default passes. */
  lemma CatalogueDefaultsValid()
    ensures forall i, k :: ServicePresets.IsPlanAt(i, k) ==>
      Validate(ServicePresets.Catalogue[i].plans[k], ServicePresets.Catalogue[i].plans[k].maxMembers - 1, "US").None?
  {
    ServicePresets.MaxMembersBetweenTwoAndEight();
    forall i, k | ServicePresets.IsPlanAt(i, k)
      ensures Validate(ServicePresets.Catalogue[i].plans[k], ServicePresets.Catalogue[i].plans[k].maxMembers - 1, "US").None?
    {
      DefaultSpacesInRange(ServicePresets.Catalogue[i].plans[k]);
    }
  }

  /** The activity describes and points at the group just created, and belongs to its host. */
  lemma ActivityRefersToGroup(id: nat, providerName: string, plan: ServicePresets.ServicePlan, hostId: string,
                              remainingSpaces: int, location: string)
    ensures var g := NewGroup(id, providerName, plan, hostId, remainingSpaces, location);
      var a := JoinActivity(g, providerName, plan.name);
      a.groupId == g.id && a.userId == g.hostId && a.kind == "join" &&
      a.description == "Created " + g.name + " group in " + location
  {
  }
}
