/** A page load as a whole: the store that `merge` makes of a saved blob under the current URL, and
    the first sync of that location with it (apps/web/src/store/ui-store.ts:604-659,
    apps/web/src/app/url-navigation-sync.ts:30-41). */
module FirstSync {
  import opened Sequences
  import opened UrlParams
  import opened Navigation
  import opened NavigationLaws
  import opened Rehydration

  /** The fields that a location can give. */
  predicate IsLocated(f: Field) {
    match f
    case SectionF | InvocationId | ApplicationId | ApplicationRunF | EvidenceId | AutomationId => true
    case WorkItemId | WorkItemModeF | WorkItemSectionF | TaskAreaF | ExternalTabF => true
    case SettingsDialogOpenF | SettingsCategoryF | SettingsQueryF => true
    case PlanningProjectId | PlanningViewF | PlanningFiltersF => true
    case _ => false
  }

  predicate ShowsRun(v: Json, run: Option<ApplicationRun>) {
    if run.None? then v == Null
    else
      && IsRun(v)
      && v.fields["applicationId"].s == run.value.applicationId
      && v.fields["routineId"].s == run.value.routineId
      && v.fields["invocationId"].s == run.value.invocationId
  }

  predicate ShowsFilters(v: Json, f: PlanningFilters) {
    && IsFilters(v)
    && v.fields["status"].s == f.status && v.fields["priority"].s == f.priority
    && v.fields["milestone"].s == f.milestone && v.fields["due"].s == f.due
  }

  /** A stored value is that of the navigation state. */
  predicate Shows(v: Json, s: NavState, f: Field) {
    match f
    case SectionF => v == Str(s.section)
    case InvocationId => v == OptStr(s.selectedInvocationId)
    case ApplicationId => v == OptStr(s.selectedApplicationId)
    case ApplicationRunF => ShowsRun(v, s.selectedApplicationRun)
    case EvidenceId => v == OptStr(s.selectedEvidenceId)
    case AutomationId => v == OptStr(s.selectedAutomationId)
    case WorkItemId => v == OptStr(s.selectedWorkItemId)
    case WorkItemModeF => v == Str(s.selectedWorkItemMode)
    case WorkItemSectionF => v == Str(s.selectedWorkItemSection)
    case TaskAreaF => v == Str(s.taskArea)
    case ExternalTabF => v == Str(s.selectedExternalWorkTab)
    case SettingsDialogOpenF => v == Bool(s.settingsDialogOpen)
    case SettingsCategoryF => v == CategoryJson(s.settingsCategory)
    case SettingsQueryF => v == Str(s.settingsQuery)
    case PlanningProjectId => v == OptStr(s.selectedPlanningProjectId)
    case PlanningViewF => v == Str(s.planningProjectView)
    case PlanningFiltersF => ShowsFilters(v, s.planningProjectFilters)
    case _ => true
  }

  /** The stored fields hold the navigation state `s`. */
  ghost predicate Holds(v: Values, s: NavState) {
    forall f :: IsLocated(f) ==> f in v && Shows(v[f], s, f)
  }

  // ------------------------------------------------------------- which stores hold a state

  /** A value that shows a field of a state is in range. */
  lemma {:induction false} ShownInRange(v: Json, s: NavState, f: Field)
    requires IsLocated(f) && Shows(v, s, f)
    ensures InRange(f, v)
  {
    hide IsSection, IsWorkItemMode, IsWorkItemSection, IsTaskArea, IsExternalTab, IsSettingsCategory, IsPlanningView;
    hide IsDue, IsRecord;
  }

  function At(v: Values, f: Field): Json {
    if f in v then v[f] else Null
  }

  function IdOf(v: Json): Option<string> {
    if v.Str? then Some(v.s) else None
  }

  function TextOf(v: Json): string {
    if v.Str? then v.s else ""
  }

  function SectionOf(v: Json): SectionKey {
    if v.Str? && IsSection(v.s) then v.s else "dashboard"
  }

  function ModeIn(v: Json): WorkItemMode {
    if v.Str? && IsWorkItemMode(v.s) then v.s else "summary"
  }

  function ItemSectionIn(v: Json): WorkItemSection {
    if v.Str? && IsWorkItemSection(v.s) then v.s else "overview"
  }

  function AreaIn(v: Json): TaskArea {
    if v.Str? && IsTaskArea(v.s) then v.s else "overview"
  }

  function TabIn(v: Json): ExternalTab {
    if v.Str? && IsExternalTab(v.s) then v.s else "issue"
  }

  function CategoryIn(v: Json): Option<SettingsCategory> {
    if v.Str? && IsSettingsCategory(v.s) then Some(v.s) else None
  }

  function ViewIn(v: Json): PlanningView {
    if v.Str? && IsPlanningView(v.s) then v.s else "list"
  }

  function RunIn(v: Json): Option<ApplicationRun> {
    if IsRun(v)
        then Some(ApplicationRun(v.fields["applicationId"].s, v.fields["routineId"].s, v.fields["invocationId"].s))
    else None
  }

  function FiltersIn(v: Json): PlanningFilters {
    if IsFilters(v) then
      PlanningFilters(v.fields["status"].s, v.fields["priority"].s, v.fields["milestone"].s, v.fields["due"].s)
    else DEFAULT_FILTERS
  }

  /** The navigation state that the stored fields hold, with defaults for what is out of range. */
  function StateOf(v: Values): NavState {
    NavState(
      SectionOf(At(v, SectionF)), IdOf(At(v, InvocationId)), IdOf(At(v, ApplicationId)), RunIn(At(v, ApplicationRunF)),
      IdOf(At(v, EvidenceId)), IdOf(At(v, AutomationId)), IdOf(At(v, WorkItemId)), ModeIn(At(v, WorkItemModeF)),
      ItemSectionIn(At(v, WorkItemSectionF)), AreaIn(At(v, TaskAreaF)), TabIn(At(v, ExternalTabF)),
      At(v, SettingsDialogOpenF) == Bool(true), CategoryIn(At(v, SettingsCategoryF)), TextOf(At(v, SettingsQueryF)),
      IdOf(At(v, PlanningProjectId)), ViewIn(At(v, PlanningViewF)), FiltersIn(At(v, PlanningFiltersF)))
  }

  lemma {:induction false} InRangeShown(v: Values, f: Field)
    requires IsLocated(f) && f in v && InRange(f, v[f])
    ensures Shows(v[f], StateOf(v), f)
  {
    hide IsSection, IsWorkItemMode, IsWorkItemSection, IsTaskArea, IsExternalTab, IsSettingsCategory, IsPlanningView;
    hide IsDue, IsRecord;
  }

  /** Two states agree on a field. */
  predicate Agree(s: NavState, t: NavState, f: Field) {
    match f
    case SectionF => s.section == t.section
    case InvocationId => s.selectedInvocationId == t.selectedInvocationId
    case ApplicationId => s.selectedApplicationId == t.selectedApplicationId
    case ApplicationRunF => s.selectedApplicationRun == t.selectedApplicationRun
    case EvidenceId => s.selectedEvidenceId == t.selectedEvidenceId
    case AutomationId => s.selectedAutomationId == t.selectedAutomationId
    case WorkItemId => s.selectedWorkItemId == t.selectedWorkItemId
    case WorkItemModeF => s.selectedWorkItemMode == t.selectedWorkItemMode
    case WorkItemSectionF => s.selectedWorkItemSection == t.selectedWorkItemSection
    case TaskAreaF => s.taskArea == t.taskArea
    case ExternalTabF => s.selectedExternalWorkTab == t.selectedExternalWorkTab
    case SettingsDialogOpenF => s.settingsDialogOpen == t.settingsDialogOpen
    case SettingsCategoryF => s.settingsCategory == t.settingsCategory
    case SettingsQueryF => s.settingsQuery == t.settingsQuery
    case PlanningProjectId => s.selectedPlanningProjectId == t.selectedPlanningProjectId
    case PlanningViewF => s.planningProjectView == t.planningProjectView
    case PlanningFiltersF => s.planningProjectFilters == t.planningProjectFilters
    case _ => true
  }

  lemma {:induction false} ShownOnce(v: Json, s: NavState, t: NavState, f: Field)
    requires Shows(v, s, f) && Shows(v, t, f)
    ensures Agree(s, t, f)
  {
    hide IsSection, IsWorkItemMode, IsWorkItemSection, IsTaskArea, IsExternalTab, IsSettingsCategory, IsPlanningView;
    hide IsDue;
    hide IsRecord;
    if f == ApplicationRunF {
      NullIsNoRun();
    }
  }

  lemma {:induction false} NullIsNoRun()
    ensures !IsRun(Null)
  {
  }

  lemma {:induction false} AgreeOnSelections(s: NavState, t: NavState)
    requires forall f: Field :: IsLocated(f) ==> Agree(s, t, f)
    ensures s.section == t.section && s.selectedInvocationId == t.selectedInvocationId
    ensures s.selectedApplicationId == t.selectedApplicationId && s.selectedApplicationRun == t.selectedApplicationRun
    ensures s.selectedEvidenceId == t.selectedEvidenceId && s.selectedAutomationId == t.selectedAutomationId
  {
    assert Agree(s, t, SectionF) && Agree(s, t, InvocationId) && Agree(s, t, ApplicationId);
    assert Agree(s, t, ApplicationRunF) && Agree(s, t, EvidenceId) && Agree(s, t, AutomationId);
  }

  lemma {:induction false} AgreeOnWorkItem(s: NavState, t: NavState)
    requires forall f: Field :: IsLocated(f) ==> Agree(s, t, f)
    ensures s.selectedWorkItemId == t.selectedWorkItemId && s.selectedWorkItemMode == t.selectedWorkItemMode
    ensures s.selectedWorkItemSection == t.selectedWorkItemSection && s.taskArea == t.taskArea
    ensures s.selectedExternalWorkTab == t.selectedExternalWorkTab
  {
    hide IsWorkItemMode, IsWorkItemSection, IsTaskArea, IsExternalTab;
    assert Agree(s, t, WorkItemId) && Agree(s, t, WorkItemModeF) && Agree(s, t, WorkItemSectionF);
    assert Agree(s, t, TaskAreaF) && Agree(s, t, ExternalTabF);
  }

  lemma {:induction false} AgreeOnRest(s: NavState, t: NavState)
    requires forall f: Field :: IsLocated(f) ==> Agree(s, t, f)
    ensures s.settingsDialogOpen == t.settingsDialogOpen && s.settingsCategory == t.settingsCategory
    ensures s.settingsQuery == t.settingsQuery && s.selectedPlanningProjectId == t.selectedPlanningProjectId
    ensures s.planningProjectView == t.planningProjectView && s.planningProjectFilters == t.planningProjectFilters
  {
    hide IsSettingsCategory, IsPlanningView, IsDue;
    assert Agree(s, t, SettingsDialogOpenF) && Agree(s, t, SettingsCategoryF) && Agree(s, t, SettingsQueryF);
    assert Agree(s, t, PlanningProjectId) && Agree(s, t, PlanningViewF) && Agree(s, t, PlanningFiltersF);
  }

  lemma {:induction false} AgreeOnAll(s: NavState, t: NavState)
    requires forall f: Field :: IsLocated(f) ==> Agree(s, t, f)
    ensures s == t
  {
    hide Agree, IsLocated;
    hide IsSection, IsWorkItemMode, IsWorkItemSection, IsTaskArea, IsExternalTab, IsSettingsCategory, IsPlanningView;
    hide IsDue;
    AgreeOnSelections(s, t);
    AgreeOnWorkItem(s, t);
    AgreeOnRest(s, t);
  }

  /** Stored fields hold at most one state. */
  lemma {:induction false} HeldState(v: Values, s: NavState, t: NavState)
    requires Holds(v, s) && Holds(v, t)
    ensures s == t
  {
    hide Shows, Agree, IsLocated;
    forall f | IsLocated(f) ensures Agree(s, t, f) {
      ShownOnce(v[f], s, t, f);
    }
    AgreeOnAll(s, t);
  }

  /** A store holds a state if and only if its located fields are in range. */
  lemma {:induction false} HoldsSome(v: Values)
    ensures (exists s :: Holds(v, s)) <==> (forall f :: IsLocated(f) ==> f in v && InRange(f, v[f]))
  {
    hide Shows, IsLocated, InRange, StateOf;
    if s :| Holds(v, s) {
      forall f | IsLocated(f) ensures f in v && InRange(f, v[f]) {
        ShownInRange(v[f], s, f);
      }
    }
    if forall f :: IsLocated(f) ==> f in v && InRange(f, v[f]) {
      forall f | IsLocated(f) ensures f in v && Shows(v[f], StateOf(v), f) {
        InRangeShown(v, f);
      }
      assert Holds(v, StateOf(v));
    }
  }

  // ------------------------------------------------------------- the patch on top

  /** What a patch gives shows the patched state. */
  lemma {:induction false} GivenShows(p: Patch, s: NavState, f: Field)
    requires PatchValue(p, f).Some?
    ensures Shows(PatchValue(p, f).value, Applied(s, p), f)
  {
    hide IsSection, IsWorkItemMode, IsWorkItemSection, IsTaskArea, IsExternalTab, IsSettingsCategory, IsPlanningView;
    hide IsDue;
  }

  /** What a patch leaves alone is as before. */
  lemma {:induction false} NotGivenAgrees(p: Patch, s: NavState, f: Field)
    requires PatchValue(p, f).None?
    ensures Agree(s, Applied(s, p), f)
  {
    hide IsSection, IsWorkItemMode, IsWorkItemSection, IsTaskArea, IsExternalTab, IsSettingsCategory, IsPlanningView;
    hide IsDue;
  }

  lemma {:induction false} AgreeShows(v: Json, s: NavState, t: NavState, f: Field)
    requires Agree(s, t, f) && Shows(v, s, f)
    ensures Shows(v, t, f)
  {
    hide IsSection, IsWorkItemMode, IsWorkItemSection, IsTaskArea, IsExternalTab, IsSettingsCategory, IsPlanningView;
    hide IsDue, IsRecord;
  }

  /** Applying the URL once more to the store that `merge` left changes nothing. */
  lemma {:induction false} MergedIsApplied(current: Values, saved: Values, p: Patch, s: NavState)
    requires Complete(current) && Holds(Merged(current, saved, p), s)
    ensures Applied(s, p) == s
  {
    hide Shows, Agree, IsLocated, PatchValue, Applied, RepairedField;
    var v := Merged(current, saved, p);
    forall f | IsLocated(f) ensures Shows(v[f], Applied(s, p), f) {
      if PatchValue(p, f).Some? {
        GivenShows(p, s, f);
      } else {
        NotGivenAgrees(p, s, f);
        AgreeShows(v[f], s, Applied(s, p), f);
      }
    }
    HeldState(v, s, Applied(s, p));
  }

  /** Which blobs load into a state, judged before the load. */
  ghost predicate LoadsState(current: Values, saved: Values, p: Patch)
    requires Complete(current)
  {
    forall f :: IsLocated(f) ==>
        f in Spread(current, saved) && (PatchValue(p, f).Some? || EndsInRange(f, Spread(current, saved)[f]))
  }

  /** Main result: the store after `merge` of a blob under a URL holds a navigation state if and only
      if every located field comes from the URL or ends in range. */
  lemma {:induction false} LoadHoldsState(current: Values, saved: Values, p: Patch)
    requires Complete(current) && Accepts(Locale, current[Locale])
    ensures (exists s :: Holds(Merged(current, saved, p), s)) <==> LoadsState(current, saved, p)
  {
    hide IsLocated, PatchValue, EndsInRange, InRange, Holds, Accepts;
    HoldsSome(Merged(current, saved, p));
    forall f | IsLocated(f)
      ensures f in Spread(current, saved)
      ensures InRange(f, Merged(current, saved, p)[f])
         <==> PatchValue(p, f).Some? || EndsInRange(f, Spread(current, saved)[f])
    {
      LocatedComplete(current, f);
      MergeInRange(current, saved, p, f);
    }
  }

  lemma {:induction false} LocatedComplete(current: Values, f: Field)
    requires Complete(current) && IsLocated(f)
    ensures f in current
  {
  }

  /** Main result: on a load the first sync leaves the store as `merge` made it and prints it over
      the location; it settles the URL if and only if that state is tidy. */
  lemma {:induction false} FirstSyncAfterLoad(current: Values, saved: Values, url: seq<Param>, s: NavState)
    requires Complete(current) && Holds(Merged(current, saved, Parsed(url)), s)
    ensures Sync(Synced(url, s)) == Synced(Printed(url, s), s)
    ensures Sync(Sync(Synced(url, s))).url == Printed(url, s) <==> Tidy(s)
  {
    hide Printed, Parsed, Applied, Tidy, Merged, Holds, Complete;
    MergedIsApplied(current, saved, Parsed(url), s);
    OwnLocationSettled(url, s);
  }
}
