/** Restoring the UI store from a saved blob of any content: the field-by-field repair of `merge` and
    its inverse `partialize` (apps/web/src/store/ui-store.ts:565-659). */
module Rehydration {
  import opened Sequences
  import opened Navigation
  import StoreSetters
  import UrlParams

  datatype Json =
    | Null | Bool(b: bool) | Num(n: real) | Str(s: string) | Arr(items: seq<Json>) | Obj(fields: map<string, Json>)

  /** The fields of the store; the last three are not persisted. */
  datatype Field =
    | SectionF | AgentId | InvocationId | ArtifactId | ProjectId | WorkItemId | WorkItemModeF | DetailPreference
    | ExperienceModeF | WorkItemSectionF | TaskAreaF | ExternalTabF | SettingsCategoryF | SettingsQueryF
    | SettingsScrollTop | RecentSections | FavoriteSections | PlanningProjectId | PlanningViewF | PlanningFiltersF
    | WorktreeId | WorktreeReviewContext | AgentSkillId | CanvasSceneId | ToolName | ApplicationId | ApplicationRunF
    | EvidenceId | CollapsedNavGroups | Skin | ModeF | Locale
    | AutomationId | SettingsDialogOpenF | Transient(name: string)

  /** A store or a blob: a missing field is `undefined`. */
  type Values = map<Field, Json>

  predicate IsPersisted(f: Field) {
    !f.AutomationId? && !f.SettingsDialogOpenF? && !f.Transient?
  }

  /** A complete store has every field but the transient ones. */
  ghost predicate Complete(v: Values) {
    forall f: Field :: !f.Transient? ==> f in v
  }

  // ------------------------------------------------------------- tests on saved values

  /** A value that JavaScript takes for true. */
  predicate TruthyJson(v: Json) {
    match v
    case Null => false
    case Bool(b) => b
    case Num(n) => n != 0.0
    case Str(s) => s != ""
    case Arr(_) => true
    case Obj(_) => true
  }

  predicate IsSectionValue(v: Json) {
    v.Str? && IsSection(v.s)
  }

  function Sections(): Json -> bool {
    (v: Json) => IsSectionValue(v)
  }

  predicate IsNavGroup(v: Json) {
    v.Str? && v.s in {"entry", "settings", "trace"}
  }

  /** What the repair leaves alone in each field. */
  predicate Accepts(f: Field, v: Json) {
    match f
    case CollapsedNavGroups => v.Arr? && forall g :: g in v.items ==> IsNavGroup(g)
    case SectionF => IsSectionValue(v)
    case Skin => v.Str? && v.s in {"default", "ocean", "ink"}
    case ModeF => v.Str? && v.s in {"light", "dark", "system"}
    case Locale => v.Str? && v.s in {"en-US", "zh-CN"}
    case WorkItemModeF => v.Str? && IsWorkItemMode(v.s)
    case DetailPreference => v.Str? && IsWorkItemMode(v.s)
    case ExperienceModeF => v.Str? && v.s in {"ordinary", "professional"}
    case PlanningViewF => v.Str? && IsPlanningView(v.s)
    case WorkItemSectionF => v.Str? && IsWorkItemSection(v.s)
    case TaskAreaF => v.Str? && IsTaskArea(v.s)
    case ExternalTabF => v.Str? && IsExternalTab(v.s)
    case SettingsCategoryF => !TruthyJson(v) || (v.Str? && IsSettingsCategory(v.s))
    case SettingsQueryF => v.Str?
    case SettingsScrollTop => v.Num? && v.n >= 0.0
    case RecentSections =>
      v.Arr? && |v.items| <= StoreSetters.MAX_RECENT && forall s :: s in v.items ==> IsSectionValue(s)
    case FavoriteSections => v.Arr? && forall s :: s in v.items ==> IsSectionValue(s)
    case PlanningFiltersF => v.Obj? || v.Arr?
    case _ => true
  }

  const DEFAULT_GROUPS := Arr([Str("settings"), Str("trace")])
  const DEFAULT_FILTERS_JSON :=
    Obj(map["status" := Str("all"), "priority" := Str("all"), "milestone" := Str(""), "due" := Str("all")])

  function RecentList(v: Json): Json {
    if v.Arr? then Arr(First(Filter(v.items, Sections()), StoreSetters.MAX_RECENT)) else Arr([])
  }

  function FavoriteList(v: Json): Json {
    if v.Arr? then Arr(Filter(v.items, Sections())) else Arr([])
  }

  /** What replaces a rejected value, but for the locale and the experience mode. */
  function Default(f: Field): Json {
    match f
    case CollapsedNavGroups => DEFAULT_GROUPS
    case SectionF => Str("dashboard")
    case Skin => Str("default")
    case ModeF => Str("dark")
    case WorkItemModeF => Str("summary")
    case DetailPreference => Str("summary")
    case PlanningViewF => Str("list")
    case WorkItemSectionF => Str("overview")
    case TaskAreaF => Str("overview")
    case ExternalTabF => Str("issue")
    case SettingsQueryF => Str("")
    case SettingsScrollTop => Num(0.0)
    case PlanningFiltersF => DEFAULT_FILTERS_JSON
    case _ => Null
  }

  /** The experience mode that goes with a detail preference. */
  function ModeFor(preference: Json): Json {
    if preference == Str("expert") then Str("professional") else Str("ordinary")
  }

  /** A field after the repair, from its value `v` and the value `fallback` of the running store;
      `expert` tells the repaired detail preference. */
  function Repaired(f: Field, v: Json, fallback: Json, expert: bool): Json {
    match f
    case RecentSections => RecentList(v)
    case FavoriteSections => FavoriteList(v)
    case Locale => if Accepts(f, v) then v else fallback
    case ExperienceModeF => if Accepts(f, v) then v else if expert then Str("professional") else Str("ordinary")
    case _ => if Accepts(f, v) then v else Default(f)
  }

  /** `{ ...current, ...saved }` */
  function Spread(current: Values, saved: Values): Values {
    current + saved
  }

  function Fallback(current: Values, f: Field): Json {
    if f in current then current[f] else Null
  }

  function RepairedPreference(m: Values): Json
    requires DetailPreference in m
  {
    Repaired(DetailPreference, m[DetailPreference], Null, false)
  }

  function RepairedField(current: Values, saved: Values, f: Field): Json
    requires f in Spread(current, saved) && DetailPreference in Spread(current, saved)
  {
    var m := Spread(current, saved);
    // the locale is tested in the blob, not in the spread
    var v := if f == Locale && Locale !in saved then Null else m[f];
    Repaired(f, v, Fallback(current, f), RepairedPreference(m) == Str("expert"))
  }

  // ------------------------------------------------------------- the URL's part

  function OptStr(v: Option<string>): Json {
    if v.Some? then Str(v.value) else Null
  }

  function RunJson(v: Option<ApplicationRun>): Json {
    if v.None? then Null
    else Obj(map["applicationId" := Str(v.value.applicationId), "routineId" := Str(v.value.routineId),
        "invocationId" := Str(v.value.invocationId)])
  }

  function FiltersJson(v: PlanningFilters): Json {
    Obj(map["status" := Str(v.status), "priority" := Str(v.priority), "milestone" := Str(v.milestone),
        "due" := Str(v.due)])
  }

  function CategoryJson(v: Option<SettingsCategory>): Json {
    if v.Some? then Str(v.value) else Null
  }

  function Lift<T>(v: Option<T>, f: T -> Json): Option<Json> {
    if v.Some? then Some(f(v.value)) else None
  }

  function WordJson(v: string): Json {
    Str(v)
  }

  /** The value that a patch gives to a field. */
  function PatchValue(p: Patch, f: Field): Option<Json> {
    match f
    case SectionF => if p.section.Some? then Some(Str(p.section.value)) else None
    case InvocationId => Lift(p.selectedInvocationId, OptStr)
    case ApplicationId => Lift(p.selectedApplicationId, OptStr)
    case ApplicationRunF => Lift(p.selectedApplicationRun, RunJson)
    case EvidenceId => Lift(p.selectedEvidenceId, OptStr)
    case AutomationId => Lift(p.selectedAutomationId, OptStr)
    case WorkItemId => Lift(p.selectedWorkItemId, OptStr)
    case WorkItemModeF => if p.selectedWorkItemMode.Some? then Some(Str(p.selectedWorkItemMode.value)) else None
    case WorkItemSectionF => if p.selectedWorkItemSection.Some? then Some(Str(p.selectedWorkItemSection.value))
        else None
    case TaskAreaF => if p.taskArea.Some? then Some(Str(p.taskArea.value)) else None
    case ExternalTabF => if p.selectedExternalWorkTab.Some? then Some(Str(p.selectedExternalWorkTab.value)) else None
    case SettingsDialogOpenF => if p.settingsDialogOpen.Some? then Some(Bool(p.settingsDialogOpen.value)) else None
    case SettingsCategoryF => Lift(p.settingsCategory, CategoryJson)
    case SettingsQueryF => Lift(p.settingsQuery, WordJson)
    case PlanningProjectId => Lift(p.selectedPlanningProjectId, OptStr)
    case PlanningViewF => if p.planningProjectView.Some? then Some(Str(p.planningProjectView.value)) else None
    case PlanningFiltersF => Lift(p.planningProjectFilters, FiltersJson)
    case _ => None
  }

  /** Main definition: each field of the merged store is the patch's value, or else its own saved or
      running value, repaired. */
  function MergedField(current: Values, saved: Values, p: Patch, f: Field): Json
    requires f in Spread(current, saved) && DetailPreference in Spread(current, saved)
  {
    if PatchValue(p, f).Some? then PatchValue(p, f).value else RepairedField(current, saved, f)
  }

  function Merged(current: Values, saved: Values, p: Patch): Values
    requires DetailPreference in Spread(current, saved)
  {
    map f | f in Spread(current, saved) :: MergedField(current, saved, p, f)
  }

  /** `partialize` */
  function Persist(v: Values): Values {
    map f | f in v && IsPersisted(f) :: v[f]
  }

  // ------------------------------------------------------------- merging step by step

  /** The place of a field in the sequence of repairs; 0 for the fields that are not repaired. */
  function RepairRank(f: Field): nat {
    match f
    case CollapsedNavGroups => 1
    case SectionF => 2
    case Skin => 3
    case ModeF => 4
    case Locale => 5
    case WorkItemModeF => 6
    case DetailPreference => 7
    case ExperienceModeF => 8
    case PlanningViewF => 9
    case WorkItemSectionF => 10
    case TaskAreaF => 11
    case ExternalTabF => 12
    case SettingsCategoryF => 13
    case SettingsQueryF => 14
    case SettingsScrollTop => 15
    case RecentSections => 16
    case FavoriteSections => 17
    case PlanningFiltersF => 18
    case _ => 0
  }

  /** The store after the first `n` repairs. */
  function Halfway(current: Values, saved: Values, n: nat): Values
    requires DetailPreference in Spread(current, saved)
  {
    map f | f in Spread(current, saved) ::
      if RepairRank(f) <= n then RepairedField(current, saved, f) else Spread(current, saved)[f]
  }

  lemma {:induction false} NothingRepaired(current: Values, saved: Values)
    requires DetailPreference in Spread(current, saved)
    ensures Halfway(current, saved, 0) == Spread(current, saved)
  {
    forall f | f in Spread(current, saved)
      ensures Halfway(current, saved, 0)[f] == Spread(current, saved)[f]
    {
      if RepairRank(f) == 0 {
        hide IsSection;
        assert Repaired(f, Spread(current, saved)[f], Fallback(current, f), RepairedPreference(Spread(current, saved))
               == Str("expert"))
               == Spread(current, saved)[f];
      }
    }
  }

  lemma {:induction false} RankIsInjective(f: Field, g: Field)
    requires RepairRank(f) == RepairRank(g) > 0
    ensures f == g
  {
  }

  /** One repair takes the store from one halfway point to the next. */
  lemma {:induction false} RepairStep(current: Values, saved: Values, f: Field, before: Values)
    requires f in Spread(current, saved) && DetailPreference in Spread(current, saved) && RepairRank(f) > 0
    requires before == Halfway(current, saved, RepairRank(f) - 1)
    ensures before[f := RepairedField(current, saved, f)] == Halfway(current, saved, RepairRank(f))
    ensures RepairedField(current, saved, f) == Spread(current, saved)[f]
       ==> before == Halfway(current, saved, RepairRank(f))
  {
    hide RepairedField, RepairRank;
    forall g | g in before && RepairRank(f) == RepairRank(g)
      ensures f == g
    {
      RankIsInjective(f, g);
    }
  }

  lemma {:induction false} Pending(current: Values, saved: Values, f: Field)
    requires Complete(current) && RepairRank(f) > 0
    ensures f in Spread(current, saved) && DetailPreference in Spread(current, saved)
    ensures f in Halfway(current, saved, RepairRank(f) - 1)
    ensures Halfway(current, saved, RepairRank(f) - 1)[f] == Spread(current, saved)[f]
  {
    hide RepairedField;
  }

  predicate IsPlain(f: Field) {
    RepairRank(f) > 0 && f !in {Locale, ExperienceModeF, RecentSections, FavoriteSections}
  }

  lemma {:induction false} PlainStep(current: Values, saved: Values, f: Field, before: Values, after: Values)
    requires f in Spread(current, saved) && DetailPreference in Spread(current, saved) && IsPlain(f)
    requires before == Halfway(current, saved, RepairRank(f) - 1)
    requires after == if Accepts(f, Spread(current, saved)[f]) then before else before[f := Default(f)]
    ensures after == Halfway(current, saved, RepairRank(f))
  {
    hide Accepts, Halfway, Default, RepairRank;
    RepairStep(current, saved, f, before);
  }

  /** The two section lists are filtered whatever they hold. */
  lemma {:induction false} ListStep(current: Values, saved: Values, f: Field, before: Values, after: Values)
    requires f in Spread(current, saved) && DetailPreference in Spread(current, saved)
             && f in {RecentSections, FavoriteSections}
    requires before == Halfway(current, saved, RepairRank(f) - 1)
    requires after
         == before[f := if f == RecentSections then RecentList(Spread(current, saved)[f])
             else FavoriteList(Spread(current, saved)[f])]
    ensures after == Halfway(current, saved, RepairRank(f))
  {
    hide Halfway, RecentList, FavoriteList, Accepts;
    RepairStep(current, saved, f, before);
  }

  lemma {:induction false} LocaleStep(current: Values, saved: Values, before: Values, after: Values)
    requires Complete(current) && before == Halfway(current, saved, 4)
    requires after
         == if Locale in saved && Accepts(Locale, saved[Locale]) then before
             else before[Locale := Fallback(current, Locale)]
    ensures after == Halfway(current, saved, 5)
  {
    hide Halfway;
    assert Locale in Spread(current, saved) && DetailPreference in Spread(current, saved);
    RepairStep(current, saved, Locale, before);
  }

  lemma {:induction false} ExperienceStep(current: Values, saved: Values, before: Values)
    requires Complete(current) && before == Halfway(current, saved, 7)
    ensures DetailPreference in before
    ensures (if Accepts(ExperienceModeF, Spread(current, saved)[ExperienceModeF]) then before
             else before[ExperienceModeF := ModeFor(before[DetailPreference])])
            == Halfway(current, saved, 8)
  {
    assert before[DetailPreference] == RepairedPreference(Spread(current, saved));
    hide Halfway, Accepts;
    RepairStep(current, saved, ExperienceModeF, before);
  }

  method RepairLayout(current: Values, saved: Values) returns (merged: Values)
    requires Complete(current)
    ensures merged == Halfway(current, saved, 3)
  {
    hide Halfway, Accepts, Spread, Complete, RepairedField, Repaired;
    merged := Spread(current, saved);
    Pending(current, saved, DetailPreference);
    NothingRepaired(current, saved);
    ghost var before := merged;
    Pending(current, saved, CollapsedNavGroups);
    if !Accepts(CollapsedNavGroups, merged[CollapsedNavGroups]) {
      merged := merged[CollapsedNavGroups := DEFAULT_GROUPS];
    }
    PlainStep(current, saved, CollapsedNavGroups, before, merged);
    before := merged;
    Pending(current, saved, SectionF);
    if !Accepts(SectionF, merged[SectionF]) {
      merged := merged[SectionF := Str("dashboard")];
    }
    PlainStep(current, saved, SectionF, before, merged);
    before := merged;
    Pending(current, saved, Skin);
    if !Accepts(Skin, merged[Skin]) {
      merged := merged[Skin := Str("default")];
    }
    PlainStep(current, saved, Skin, before, merged);
  }

  method RepairModes(current: Values, saved: Values, half: Values) returns (merged: Values)
    requires Complete(current) && half == Halfway(current, saved, 3)
    ensures merged == Halfway(current, saved, 8)
  {
    hide Halfway, Accepts, Spread, Complete;
    merged := half;
    ghost var before := merged;
    Pending(current, saved, ModeF);
    if !Accepts(ModeF, merged[ModeF]) {
      merged := merged[ModeF := Str("dark")];
    }
    PlainStep(current, saved, ModeF, before, merged);
    before := merged;
    Pending(current, saved, Locale);
    // the saved locale is tested, not the merged one
    if Locale !in saved || !Accepts(Locale, saved[Locale]) {
      merged := merged[Locale := Fallback(current, Locale)];
    }
    LocaleStep(current, saved, before, merged);
    before := merged;
    Pending(current, saved, WorkItemModeF);
    if !Accepts(WorkItemModeF, merged[WorkItemModeF]) {
      merged := merged[WorkItemModeF := Str("summary")];
    }
    PlainStep(current, saved, WorkItemModeF, before, merged);
    before := merged;
    Pending(current, saved, DetailPreference);
    if !Accepts(DetailPreference, merged[DetailPreference]) {
      merged := merged[DetailPreference := Str("summary")];
    }
    PlainStep(current, saved, DetailPreference, before, merged);
    before := merged;
    Pending(current, saved, ExperienceModeF);
    if !Accepts(ExperienceModeF, merged[ExperienceModeF]) {
      merged := merged[ExperienceModeF := ModeFor(merged[DetailPreference])];
    }
    ExperienceStep(current, saved, before);
  }

  method RepairViews(current: Values, saved: Values, half: Values) returns (merged: Values)
    requires Complete(current) && half == Halfway(current, saved, 8)
    ensures merged == Halfway(current, saved, 12)
  {
    hide Halfway, Accepts, Spread, Complete, RepairedField, Repaired;
    merged := half;
    ghost var before := merged;
    Pending(current, saved, PlanningViewF);
    if !Accepts(PlanningViewF, merged[PlanningViewF]) {
      merged := merged[PlanningViewF := Str("list")];
    }
    PlainStep(current, saved, PlanningViewF, before, merged);
    before := merged;
    Pending(current, saved, WorkItemSectionF);
    if !Accepts(WorkItemSectionF, merged[WorkItemSectionF]) {
      merged := merged[WorkItemSectionF := Str("overview")];
    }
    PlainStep(current, saved, WorkItemSectionF, before, merged);
    before := merged;
    Pending(current, saved, TaskAreaF);
    if !Accepts(TaskAreaF, merged[TaskAreaF]) {
      merged := merged[TaskAreaF := Str("overview")];
    }
    PlainStep(current, saved, TaskAreaF, before, merged);
    before := merged;
    Pending(current, saved, ExternalTabF);
    if !Accepts(ExternalTabF, merged[ExternalTabF]) {
      merged := merged[ExternalTabF := Str("issue")];
    }
    PlainStep(current, saved, ExternalTabF, before, merged);
  }

  method RepairSettings(current: Values, saved: Values, half: Values) returns (merged: Values)
    requires Complete(current) && half == Halfway(current, saved, 12)
    ensures merged == Halfway(current, saved, 15)
  {
    hide Halfway, Accepts, Spread, Complete, RepairedField, Repaired;
    merged := half;
    ghost var before := merged;
    Pending(current, saved, SettingsCategoryF);
    if !Accepts(SettingsCategoryF, merged[SettingsCategoryF]) {
      merged := merged[SettingsCategoryF := Null];
    }
    PlainStep(current, saved, SettingsCategoryF, before, merged);
    before := merged;
    Pending(current, saved, SettingsQueryF);
    if !Accepts(SettingsQueryF, merged[SettingsQueryF]) {
      merged := merged[SettingsQueryF := Str("")];
    }
    PlainStep(current, saved, SettingsQueryF, before, merged);
    before := merged;
    Pending(current, saved, SettingsScrollTop);
    if !Accepts(SettingsScrollTop, merged[SettingsScrollTop]) {
      merged := merged[SettingsScrollTop := Num(0.0)];
    }
    PlainStep(current, saved, SettingsScrollTop, before, merged);
  }

  method RepairLists(current: Values, saved: Values, half: Values) returns (merged: Values)
    requires Complete(current) && half == Halfway(current, saved, 15)
    ensures merged == Halfway(current, saved, 18)
  {
    hide Halfway, Accepts, Spread, Complete, RepairedField, Repaired;
    merged := half;
    ghost var before := merged;
    Pending(current, saved, RecentSections);
    var recent := merged[RecentSections];
    merged := merged[RecentSections := RecentList(recent)];
    ListStep(current, saved, RecentSections, before, merged);
    before := merged;
    Pending(current, saved, FavoriteSections);
    var favorites := merged[FavoriteSections];
    merged := merged[FavoriteSections := FavoriteList(favorites)];
    ListStep(current, saved, FavoriteSections, before, merged);
    before := merged;
    Pending(current, saved, PlanningFiltersF);
    if !Accepts(PlanningFiltersF, merged[PlanningFiltersF]) {
      merged := merged[PlanningFiltersF := DEFAULT_FILTERS_JSON];
    }
    PlainStep(current, saved, PlanningFiltersF, before, merged);
  }

  const PATCHED_FIELDS: seq<Field> :=
    [SectionF, InvocationId, ApplicationId, ApplicationRunF, EvidenceId, AutomationId, WorkItemId, WorkItemModeF,
     WorkItemSectionF, TaskAreaF, ExternalTabF, SettingsDialogOpenF, SettingsCategoryF, SettingsQueryF,
     PlanningProjectId, PlanningViewF, PlanningFiltersF]

  function Overlay(m: Values, p: Patch, fields: seq<Field>): Values {
    map f | f in m :: if f in fields && PatchValue(p, f).Some? then PatchValue(p, f).value else m[f]
  }

  lemma {:induction false} OverlayNothing(m: Values, p: Patch)
    ensures Overlay(m, p, PATCHED_FIELDS[..0]) == m
  {
  }

  lemma {:induction false} OverlaySnoc(m: Values, p: Patch, n: nat)
    requires n < |PATCHED_FIELDS| && Complete(m)
    ensures Overlay(m, p, PATCHED_FIELDS[..n + 1])
         == if PatchValue(p, PATCHED_FIELDS[n]).Some?
             then Overlay(m, p, PATCHED_FIELDS[..n])[PATCHED_FIELDS[n] := PatchValue(p, PATCHED_FIELDS[n]).value]
            else Overlay(m, p, PATCHED_FIELDS[..n])
  {
    hide PatchValue;
    var f := PATCHED_FIELDS[n];
    assert !f.Transient? && f in m;
    assert PATCHED_FIELDS[..n + 1] == PATCHED_FIELDS[..n] + [f];
  }

  lemma {:induction false} OnlyListedPatched(p: Patch, f: Field)
    requires f !in PATCHED_FIELDS
    ensures PatchValue(p, f).None?
  {
  }

  /** The patched fields, one after the other, overwrite those of the repaired store. */
  method ApplyNavigation(m: Values, p: Patch) returns (merged: Values)
    requires Complete(m)
    ensures merged == Overlay(m, p, PATCHED_FIELDS)
  {
    hide Overlay, PatchValue, Complete;
    merged := m;
    OverlayNothing(m, p);
    for i := 0 to |PATCHED_FIELDS|
      invariant merged == Overlay(m, p, PATCHED_FIELDS[..i])
    {
      OverlaySnoc(m, p, i);
      if PatchValue(p, PATCHED_FIELDS[i]).Some? {
        merged := merged[PATCHED_FIELDS[i] := PatchValue(p, PATCHED_FIELDS[i]).value];
      }
    }
    assert PATCHED_FIELDS[..|PATCHED_FIELDS|] == PATCHED_FIELDS;
  }

  /** Main result: `merge` repairs the spread of the blob over the running store in place, field after
      field, and ends with the patch of the current URL on top. */
  method Merge(persisted: Option<Values>, current: Values, p: Patch) returns (merged: Values)
    requires Complete(current)
    ensures merged == Merged(current, if persisted.Some? then persisted.value else map[], p)
  {
    var saved := if persisted.Some? then persisted.value else map[];
    merged := RepairLayout(current, saved);
    merged := RepairModes(current, saved, merged);
    merged := RepairViews(current, saved, merged);
    merged := RepairSettings(current, saved, merged);
    merged := RepairLists(current, saved, merged);
    AllRepaired(current, saved, p);
    merged := ApplyNavigation(merged, p);
  }

  lemma {:induction false} AllRepaired(current: Values, saved: Values, p: Patch)
    requires Complete(current)
    ensures Complete(Halfway(current, saved, 18))
    ensures Overlay(Halfway(current, saved, 18), p, PATCHED_FIELDS) == Merged(current, saved, p)
  {
    hide RepairedField, PatchValue;
    forall f | f in Spread(current, saved)
      ensures RepairRank(f) <= 18
      ensures f !in PATCHED_FIELDS ==> PatchValue(p, f).None?
    {
      if f !in PATCHED_FIELDS {
        OnlyListedPatched(p, f);
      }
    }
  }

  // ------------------------------------------------------------- range

  predicate IsOneOf(v: Json, words: seq<string>) {
    v.Str? && v.s in words
  }

  predicate IsIdValue(v: Json) {
    v == Null || v.Str?
  }

  /** An object with at least these text fields. */
  predicate IsRecord(v: Json, keys: set<string>) {
    v.Obj? && forall k :: k in keys ==> k in v.fields && v.fields[k].Str?
  }

  predicate IsFilters(v: Json) {
    IsRecord(v, {"status", "priority", "milestone", "due"}) && IsDue(v.fields["due"].s)
  }

  predicate IsRun(v: Json) {
    IsRecord(v, {"applicationId", "routineId", "invocationId"})
  }

  /** The type that the store declares for a field, with the bounds that its setters keep (five
      recent pages, no negative scroll position). Transient fields are left open. */
  predicate InRange(f: Field, v: Json) {
    match f
    case SettingsCategoryF => v == Null || (v.Str? && IsSettingsCategory(v.s))
    case PlanningFiltersF => IsFilters(v)
    case ApplicationRunF => v == Null || IsRun(v)
    case WorktreeReviewContext => v == Null || IsRecord(v, {"workItemId", "worktreeId"})
    case SettingsDialogOpenF => v.Bool?
    case Transient(_) => true
    case CollapsedNavGroups => v.Arr? && forall g :: g in v.items ==> IsOneOf(g, ["entry", "settings", "trace"])
    case SectionF => IsSectionValue(v)
    case Skin => IsOneOf(v, ["default", "ocean", "ink"])
    case ModeF => IsOneOf(v, ["light", "dark", "system"])
    case Locale => IsOneOf(v, ["en-US", "zh-CN"])
    case WorkItemModeF => v.Str? && IsWorkItemMode(v.s)
    case DetailPreference => v.Str? && IsWorkItemMode(v.s)
    case ExperienceModeF => IsOneOf(v, ["ordinary", "professional"])
    case PlanningViewF => v.Str? && IsPlanningView(v.s)
    case WorkItemSectionF => v.Str? && IsWorkItemSection(v.s)
    case TaskAreaF => v.Str? && IsTaskArea(v.s)
    case ExternalTabF => v.Str? && IsExternalTab(v.s)
    case SettingsQueryF => v.Str?
    case SettingsScrollTop => v.Num? && v.n >= 0.0
    case RecentSections => v.Arr? && |v.items| <= 5 && forall s :: s in v.items ==> IsSectionValue(s)
    case FavoriteSections => v.Arr? && forall s :: s in v.items ==> IsSectionValue(s)
    case _ => IsIdValue(v)
  }

  lemma {:induction false} FilteredSections(items: seq<Json>)
    ensures forall s :: s in Filter(items, Sections()) ==> IsSectionValue(s)
    ensures forall s :: s in First(Filter(items, Sections()), StoreSetters.MAX_RECENT) ==> IsSectionValue(s)
    ensures (forall s :: s in items ==> IsSectionValue(s)) ==> Filter(items, Sections()) == items
  {
    FilterMembers(items, Sections());
    if forall s :: s in items ==> IsSectionValue(s) {
      FilterAll(items, Sections());
    }
  }

  /** Where a value can be rejected, what replaces it is accepted. */
  lemma {:induction false} DefaultAccepted(f: Field, v: Json)
    requires f != Locale && f != ExperienceModeF && f != RecentSections && f != FavoriteSections
    ensures Accepts(f, v) || Accepts(f, Default(f))
  {
    hide IsSectionValue;
    assert IsSectionValue(Str("dashboard")) by {
      DashboardIsSection();
    }
    if f == CollapsedNavGroups {
      GroupsAccepted();
    }
  }

  lemma {:induction false} GroupsAccepted()
    ensures Accepts(CollapsedNavGroups, DEFAULT_GROUPS)
  {
  }

  lemma {:induction false} DashboardIsSection()
    ensures IsSectionValue(Str("dashboard"))
  {
  }

  /** A repaired value is accepted, and an accepted value is left alone. */
  lemma {:induction false} RepairAccepts(f: Field, v: Json, fallback: Json, expert: bool)
    requires f == Locale ==> Accepts(Locale, fallback)
    ensures Accepts(f, Repaired(f, v, fallback, expert))
    ensures Accepts(f, v) ==> Repaired(f, v, fallback, expert) == v
  {
    if f == RecentSections || f == FavoriteSections {
      hide IsSectionValue, Default;
      if v.Arr? {
        FilteredSections(v.items);
      }
    } else if f == ExperienceModeF {
      hide IsSectionValue, Default;
    } else {
      hide Accepts, Default, RecentList, FavoriteList;
      if f != Locale {
        DefaultAccepted(f, v);
      }
    }
  }

  /** The closed word types of the store, word by word. */
  lemma {:induction false} WordTypes(v: Json)
    requires v.Str?
    ensures IsDue(v.s) <==> IsOneOf(v, ["all", "overdue", "upcoming", "month", "quarter", "unscheduled"])
    ensures IsWorkItemMode(v.s) <==> IsOneOf(v, ["summary", "expert"])
    ensures IsPlanningView(v.s) <==> IsOneOf(v, ["list", "board", "roadmap", "insights", "executions"])
    ensures IsWorkItemSection(v.s)
       <==> IsOneOf(v, ["overview", "process", "assets", "verification", "report", "trace"])
    ensures IsTaskArea(v.s) <==> IsOneOf(v, ["overview", "process", "assets", "verification", "trace"])
    ensures IsExternalTab(v.s) <==> IsOneOf(v, ["issue", "pr"])
    ensures IsSettingsCategory(v.s)
       <==> IsOneOf(v, ["execution", "connections", "automation", "governance", "resources", "diagnostics"])
  {
  }

  lemma {:induction false} PatchInRange(p: Patch, f: Field)
    requires PatchValue(p, f).Some?
    ensures InRange(f, PatchValue(p, f).value)
  {
    hide IsSection, IsWorkItemMode, IsWorkItemSection, IsTaskArea, IsExternalTab, IsSettingsCategory, IsPlanningView;
    hide IsDue;
  }

  lemma {:induction false} DefaultsInRange()
    ensures InRange(SettingsCategoryF, Null) && InRange(PlanningFiltersF, DEFAULT_FILTERS_JSON)
  {
  }

  /** Fields that the repair tests for their whole range. */
  predicate IsGuarded(f: Field) {
    RepairRank(f) > 0 && f != SettingsCategoryF && f != PlanningFiltersF
  }

  /** The saved values of a field that are in range after the repair: all for a guarded field, all
      but falsy ones other than null for a settings category, all but other objects and lists for
      planning filters, and those in range for a field that is not repaired. */
  predicate EndsInRange(f: Field, v: Json) {
    if IsGuarded(f) then true
    else if f == SettingsCategoryF then TruthyJson(v) || v == Null
    else if f == PlanningFiltersF then IsFilters(v) || !(v.Obj? || v.Arr?)
    else InRange(f, v)
  }

  lemma {:induction false} EndsInRangeIs(f: Field, v: Json)
    ensures EndsInRange(f, v) <==> InRange(f, v) || !Accepts(f, v)
  {
    hide Accepts, InRange, IsFilters, RepairRank;
    if IsGuarded(f) {
      GuardedRange(f, v);
    } else if f == SettingsCategoryF {
      CategoryRange(v);
    } else if f == PlanningFiltersF {
      FiltersRange(v);
    } else {
      OpenAccepted(f, v);
    }
  }

  lemma {:induction false} GuardedRange(f: Field, v: Json)
    requires IsGuarded(f)
    ensures InRange(f, v) <==> Accepts(f, v)
  {
    hide IsSectionValue, IsWorkItemMode, IsWorkItemSection, IsTaskArea, IsExternalTab, IsSettingsCategory;
    hide IsPlanningView, IsDue;
    if f == CollapsedNavGroups {
      hide IsNavGroup, IsOneOf;
      forall g ensures IsNavGroup(g) <==> IsOneOf(g, ["entry", "settings", "trace"]) {
        GroupWords(g);
      }
    } else {
      hide IsNavGroup;
    }
  }

  lemma {:induction false} GroupWords(g: Json)
    ensures IsNavGroup(g) <==> IsOneOf(g, ["entry", "settings", "trace"])
  {
  }

  lemma {:induction false} CategoryRange(v: Json)
    ensures InRange(SettingsCategoryF, v) || !Accepts(SettingsCategoryF, v) <==> TruthyJson(v) || v == Null
  {
    hide IsSettingsCategory;
    EmptyCategory();
  }

  lemma {:induction false} EmptyCategory()
    ensures !IsSettingsCategory("")
  {
  }

  lemma {:induction false} FiltersRange(v: Json)
    ensures InRange(PlanningFiltersF, v) <==> IsFilters(v)
    ensures Accepts(PlanningFiltersF, v) <==> v.Obj? || v.Arr?
  {
    hide IsFilters;
  }

  lemma {:induction false} OpenAccepted(f: Field, v: Json)
    requires !IsGuarded(f) && f != SettingsCategoryF && f != PlanningFiltersF
    ensures Accepts(f, v)
  {
  }

  /** A repaired value is in range if and only if the value was in range or was replaced. */
  lemma {:induction false} RepairedInRange(f: Field, v: Json, fallback: Json, expert: bool)
    requires f == Locale ==> Accepts(Locale, fallback)
    ensures InRange(f, Repaired(f, v, fallback, expert)) <==> InRange(f, v) || !Accepts(f, v)
  {
    RepairAccepts(f, v, fallback, expert);
    if !Accepts(f, v) {
      if f == SettingsCategoryF || f == PlanningFiltersF {
        DefaultsInRange();
      } else {
        hide Accepts, Repaired, InRange;
        if !IsGuarded(f) {
          OpenAccepted(f, v);
        }
        GuardedRange(f, Repaired(f, v, fallback, expert));
      }
    }
  }

  /** Main result: what a blob of any content becomes. A field is in range after `merge` if and only
      if the URL gives it or its value in the blob (or in the running store) ends in range. */
  lemma {:induction false} MergeInRange(current: Values, saved: Values, p: Patch, f: Field)
    requires Complete(current) && Accepts(Locale, current[Locale]) && f in Spread(current, saved)
    ensures InRange(f, Merged(current, saved, p)[f])
       <==> PatchValue(p, f).Some? || EndsInRange(f, Spread(current, saved)[f])
  {
    hide Repaired, PatchValue, Accepts, EndsInRange, InRange;
    if PatchValue(p, f).Some? {
      PatchInRange(p, f);
    } else {
      var m := Spread(current, saved);
      var v := if f == Locale && Locale !in saved then Null else m[f];
      RepairedInRange(f, v, Fallback(current, f), RepairedPreference(m) == Str("expert"));
      EndsInRangeIs(f, v);
      LocaleEnds(m[f]);
      LocaleEnds(v);
    }
  }

  lemma {:induction false} LocaleEnds(v: Json)
    ensures EndsInRange(Locale, v)
  {
  }

  /** Two values that slip through: filters without fields, and an empty category. */
  lemma {:induction false} SlipsThrough(current: Values)
    requires Complete(current) && Accepts(Locale, current[Locale])
    ensures !InRange(PlanningFiltersF,
             Merged(current, map[PlanningFiltersF := Obj(map[])], EMPTY_PATCH)[PlanningFiltersF])
    ensures !InRange(SettingsCategoryF,
             Merged(current, map[SettingsCategoryF := Str("")], EMPTY_PATCH)[SettingsCategoryF])
  {
    hide InRange, Accepts, Merged, IsFilters;
    NoPatch(PlanningFiltersF);
    NoPatch(SettingsCategoryF);
    EmptyFilters();
    MergeInRange(current, map[PlanningFiltersF := Obj(map[])], EMPTY_PATCH, PlanningFiltersF);
    MergeInRange(current, map[SettingsCategoryF := Str("")], EMPTY_PATCH, SettingsCategoryF);
  }

  lemma {:induction false} EmptyFilters()
    ensures !IsFilters(Obj(map[]))
  {
    var keys := {"status", "priority", "milestone", "due"};
    assert "due" in keys;
    assert !IsRecord(Obj(map[]), keys);
  }

  // ------------------------------------------------------------- restoring

  /** Main result: without navigation in the URL, a saved store comes back in all persisted fields
      if and only if each of them holds a value that the repair accepts. */
  lemma {:induction false} RestoresExactly(s: Values, current: Values)
    requires Complete(s) && Complete(current) && Accepts(Locale, current[Locale])
    ensures (forall f :: IsPersisted(f) ==> Merged(current, Persist(s), EMPTY_PATCH)[f] == s[f])
       <==> (forall f :: IsPersisted(f) ==> Accepts(f, s[f]))
  {
    hide Accepts, Repaired, Merged;
    forall f | IsPersisted(f)
      ensures f in Merged(current, Persist(s), EMPTY_PATCH)
      ensures Merged(current, Persist(s), EMPTY_PATCH)[f] == s[f] <==> Accepts(f, s[f])
    {
      RestoresField(s, current, f);
    }
  }

  lemma {:induction false} RestoresField(s: Values, current: Values, f: Field)
    requires Complete(s) && Complete(current) && Accepts(Locale, current[Locale]) && IsPersisted(f)
    ensures f in Merged(current, Persist(s), EMPTY_PATCH)
    ensures Merged(current, Persist(s), EMPTY_PATCH)[f] == s[f] <==> Accepts(f, s[f])
  {
    hide Accepts, Repaired;
    NoPatch(f);
    var m := Spread(current, Persist(s));
    assert m[f] == s[f];
    RepairAccepts(f, s[f], Fallback(current, f), RepairedPreference(m) == Str("expert"));
    assert Merged(current, Persist(s), EMPTY_PATCH)[f]
           == Repaired(f, s[f], Fallback(current, f), RepairedPreference(m) == Str("expert"));
  }

  lemma {:induction false} NoPatch(f: Field)
    ensures PatchValue(EMPTY_PATCH, f).None?
  {
  }

  /** Main result: a reload under the same URL changes no persisted field of a merged store, whatever
      blob it came from and whatever the new page starts with. */
  lemma {:induction false} MergeIdempotent(current: Values, saved: Values, p: Patch, next: Values, f: Field)
    requires Complete(current) && Complete(next) && Accepts(Locale, current[Locale]) && Accepts(Locale, next[Locale])
    requires IsPersisted(f)
    ensures f in Merged(current, saved, p) && f in Merged(next, Persist(Merged(current, saved, p)), p)
    ensures Merged(next, Persist(Merged(current, saved, p)), p)[f] == Merged(current, saved, p)[f]
  {
    hide Accepts, Repaired, PatchValue, InRange;
    var once := Merged(current, saved, p);
    assert f in once;
    if PatchValue(p, f).None? {
      var m := Spread(current, saved);
      var v := if f == Locale && Locale !in saved then Null else m[f];
      RepairAccepts(f, v, Fallback(current, f), RepairedPreference(m) == Str("expert"));
      var again := Spread(next, Persist(once));
      assert again[f] == once[f] && DetailPreference in again;
      RepairAccepts(f, once[f], Fallback(next, f), RepairedPreference(again) == Str("expert"));
    }
  }

  // ------------------------------------------------------------- the two modes

  predicate ModesAgree(v: Values)
    requires ExperienceModeF in v && DetailPreference in v
  {
    v[ExperienceModeF] == Str("professional") <==> v[DetailPreference] == Str("expert")
  }

  /** The repair does not reconcile the two modes: they agree after it if and only if the experience
      mode had to be replaced or already agreed with the repaired preference. */
  lemma {:induction false} ModesReconciled(current: Values, saved: Values, p: Patch)
    requires Complete(current)
    ensures ModesAgree(Merged(current, saved, p))
       <==> !Accepts(ExperienceModeF, Spread(current, saved)[ExperienceModeF])
            || (Spread(current, saved)[ExperienceModeF] == Str("professional")
                <==> RepairedPreference(Spread(current, saved)) == Str("expert"))
  {
    hide IsSection;
    var m := Spread(current, saved);
    assert PatchValue(p, ExperienceModeF).None? && PatchValue(p, DetailPreference).None?;
    assert Merged(current, saved, p)[DetailPreference] == RepairedPreference(m);
  }

  // ------------------------------------------------------------- what the repair puts in place

  /** The words that replace a rejected one. */
  function Replacement(f: Field, expert: bool): string {
    match f
    case SectionF => "dashboard"
    case Skin => "default"
    case ModeF => "dark"
    case ExperienceModeF => if expert then "professional" else "ordinary"
    case PlanningViewF => "list"
    case WorkItemSectionF => "overview"
    case TaskAreaF => "overview"
    case ExternalTabF => "issue"
    case SettingsQueryF => ""
    case _ => "summary"
  }

  predicate IsWordField(f: Field) {
    f in {SectionF, Skin, ModeF, WorkItemModeF, DetailPreference, ExperienceModeF, PlanningViewF, WorkItemSectionF,
          TaskAreaF, ExternalTabF, SettingsQueryF}
  }

  lemma {:induction false} ReplacedBy(f: Field, v: Json, fallback: Json, expert: bool)
    requires IsWordField(f) && !Accepts(f, v)
    ensures Repaired(f, v, fallback, expert) == Str(Replacement(f, expert))
  {
    hide Accepts;
  }

  /** Main result on replacements: a stale word in the blob gives way to the default of its field when
      the URL says nothing, a stale section to the dashboard, and the experience mode follows the
      detail preference that the repair leaves. */
  lemma {:induction false} StaleWords(current: Values, saved: Values, f: Field)
    requires Complete(current) && IsWordField(f) && f in saved && !InRange(f, saved[f])
    ensures var merged := Merged(current, saved, EMPTY_PATCH);
            merged[f] == Str(Replacement(f, merged[DetailPreference] == Str("expert")))
  {
    hide Accepts, InRange, Repaired, Replacement;
    NoPatch(f);
    NoPatch(DetailPreference);
    WordsGuarded(f);
    GuardedRange(f, saved[f]);
    assert Spread(current, saved)[f] == saved[f] && DetailPreference in Spread(current, saved);
    ReplacedBy(f, saved[f], Fallback(current, f), RepairedPreference(Spread(current, saved)) == Str("expert"));
    PreferenceAlone(Spread(current, saved)[DetailPreference], Fallback(current, DetailPreference));
  }

  lemma {:induction false} WordsGuarded(f: Field)
    requires IsWordField(f)
    ensures IsGuarded(f) && f != Locale
  {
  }

  /** The repair of the detail preference depends on nothing else. */
  lemma {:induction false} PreferenceAlone(v: Json, fallback: Json)
    ensures forall expert: bool ::
              Repaired(DetailPreference, v, fallback, expert) == Repaired(DetailPreference, v, Null, false)
  {
    hide Accepts;
  }

  /** And of the fields that are not words: groups, lists, filters, category, scroll position and
      locale. */
  lemma {:induction false} StaleValues(v: Json, fallback: Json, expert: bool)
    ensures !Accepts(CollapsedNavGroups, v) ==>
              Repaired(CollapsedNavGroups, v, fallback, expert) == Arr([Str("settings"), Str("trace")])
    ensures !Accepts(SettingsCategoryF, v) ==> Repaired(SettingsCategoryF, v, fallback, expert) == Null
    ensures !Accepts(SettingsScrollTop, v) ==> Repaired(SettingsScrollTop, v, fallback, expert) == Num(0.0)
    ensures !Accepts(Locale, v) ==> Repaired(Locale, v, fallback, expert) == fallback
  {
    hide Accepts, RecentList, FavoriteList;
  }

  lemma {:induction false} StaleFilters(v: Json, fallback: Json, expert: bool)
    requires !v.Obj? && !v.Arr?
    ensures Repaired(PlanningFiltersF, v, fallback, expert)
         == Obj(map["status" := Str("all"), "priority" := Str("all"), "milestone" := Str(""), "due" := Str("all")])
  {
    FiltersRange(v);
    hide Accepts, RecentList, FavoriteList;
    assert Repaired(PlanningFiltersF, v, fallback, expert) == DEFAULT_FILTERS_JSON;
  }

  /** The two section lists keep their sections, the recent one the first five. */
  lemma {:induction false} StaleLists(v: Json, fallback: Json, expert: bool)
    ensures !v.Arr? ==> Repaired(RecentSections, v, fallback, expert) == Arr([])
    ensures !v.Arr? ==> Repaired(FavoriteSections, v, fallback, expert) == Arr([])
    ensures v.Arr? ==> Repaired(FavoriteSections, v, fallback, expert) == Arr(Filter(v.items, Sections()))
    ensures v.Arr? && |Filter(v.items, Sections())| > 5 ==>
              Repaired(RecentSections, v, fallback, expert) == Arr(Filter(v.items, Sections())[..5])
    ensures v.Arr? && |Filter(v.items, Sections())| <= 5 ==>
              Repaired(RecentSections, v, fallback, expert) == Arr(Filter(v.items, Sections()))
  {
    hide Accepts, Filter;
  }

  /** What is saved: every field but the automation, the dialog and the transient ones, as it is. */
  lemma {:induction false} SavedFields(v: Values)
    requires Complete(v)
    ensures forall f :: f in Persist(v) <==>
              f in {SectionF, AgentId, InvocationId, ArtifactId, ProjectId, WorkItemId, WorkItemModeF, DetailPreference,
                    ExperienceModeF, WorkItemSectionF, TaskAreaF, ExternalTabF, SettingsCategoryF, SettingsQueryF,
                    SettingsScrollTop, RecentSections, FavoriteSections, PlanningProjectId, PlanningViewF,
                    PlanningFiltersF, WorktreeId, WorktreeReviewContext, AgentSkillId, CanvasSceneId, ToolName,
                    ApplicationId, ApplicationRunF, EvidenceId, CollapsedNavGroups, Skin, ModeF, Locale}
    ensures forall f :: f in Persist(v) ==> Persist(v)[f] == v[f]
  {
  }
}
