/** What printing and parsing the navigation state promise each other
    (apps/web/src/store/ui-store.ts:268-439). */
module NavigationLaws {
  import opened Sequences
  import opened UrlParams
  import opened Navigation

  // ------------------------------------------------------------- lens laws of printing

  lemma {:induction false} FilterNone(s: seq<Param>, p: Param -> bool)
    requires forall x :: x in s ==> !p(x)
    ensures Filter(s, p) == []
  {
    if s != [] {
      FilterNone(s[1..], p);
    }
  }

  /** Printing keeps every parameter that navigation does not own, in order and multiplicity. */
  lemma {:induction false} PrintKeepsForeign(search: seq<Param>, s: NavState)
    ensures Foreign(Printed(search, s)) == Foreign(search)
  {
    hide NavValueOf;
    var own := Collect(PRINT_ORDER, NavValue(s));
    ForeignKeys(search);
    SearchKeys();
    PrintOrder();
    CollectMembers(PRINT_ORDER, NavValue(s));
    FilterConcat(Foreign(search), own, OtherThan(NAVIGATION_SEARCH_KEYS));
    FilterAll(Foreign(search), OtherThan(NAVIGATION_SEARCH_KEYS));
    FilterNone(own, OtherThan(NAVIGATION_SEARCH_KEYS));
  }

  /** The last print wins: what an earlier print left behind has no influence. */
  lemma {:induction false} PrintTwice(search: seq<Param>, s: NavState, t: NavState)
    ensures Printed(Printed(search, s), t) == Printed(search, t)
  {
    PrintKeepsForeign(search, s);
  }

  /** The value of every navigation key can be read back. */
  lemma {:induction false} GetPrinted(search: seq<Param>, s: NavState, k: Key)
    requires !k.Other?
    ensures Get(Printed(search, s), k) == NavValueOf(s, k)
  {
    hide NavValueOf, Collect, PRINT_ORDER;
    PrintOrder();
    GetConcat(Foreign(search), Collect(PRINT_ORDER, NavValue(s)), k);
    GetCollect(PRINT_ORDER, NavValue(s), k);
    HasMember(Foreign(search), k);
    ForeignKeys(search);
  }

  ghost predicate SameValues(s: NavState, t: NavState) {
    forall k: Key :: NavValueOf(s, k) == NavValueOf(t, k)
  }

  /** Two states print the same exactly when they give every key the same value. */
  lemma {:induction false} PrintedSame(search: seq<Param>, s: NavState, t: NavState)
    ensures Printed(search, s) == Printed(search, t) <==> SameValues(s, t)
  {
    if Printed(search, s) == Printed(search, t) {
      forall k: Key ensures NavValueOf(s, k) == NavValueOf(t, k) {
        if !k.Other? {
          GetPrinted(search, s, k);
          GetPrinted(search, t, k);
        }
      }
    }
    if SameValues(s, t) {
      hide NavValueOf;
      CollectCong(PRINT_ORDER, NavValue(s), NavValue(t));
    }
  }

  // ------------------------------------------------------------- parsing a printed state

  lemma {:induction false} SectionIsToken(s: string)
    requires IsSection(s)
    ensures Trim(s) == s && s != ""
  {
    hide Trim;
    TrimLaws(s);
  }

  lemma {:induction false} WorkItemSectionIsToken(s: string)
    requires IsWorkItemSection(s)
    ensures Trim(s) == s && s != ""
  {
    hide Trim;
    TrimLaws(s);
  }

  lemma {:induction false} CategoryIsToken(s: string)
    requires IsSettingsCategory(s)
    ensures Trim(s) == s && s != ""
  {
    hide Trim;
    TrimLaws(s);
  }

  lemma {:induction false} ViewIsToken(s: string)
    requires IsPlanningView(s)
    ensures Trim(s) == s && s != ""
  {
    hide Trim;
    TrimLaws(s);
  }

  lemma {:induction false} DueIsToken(s: string)
    requires IsDue(s)
    ensures Trim(s) == s && s != ""
  {
    hide Trim;
    TrimLaws(s);
  }

  lemma {:induction false} EmptyTrim()
    ensures Trim("") == "" && Trimmed("")
  {
  }

  lemma {:induction false} AllIsToken()
    ensures Trim("all") == "all" && Trimmed("all")
  {
    DueIsToken("all");
    TrimLaws("all");
  }

  lemma {:induction false} ShortToken(s: string)
    requires s in {"expert", "pr", "true"}
    ensures Trim(s) == s && s != ""
  {
    hide Trim;
    TrimLaws(s);
  }

  lemma {:induction false} PrintedParam(search: seq<Param>, s: NavState, k: Key)
    requires !k.Other?
    ensures StringParam(Printed(search, s), k) == TrimmedValue(NavValueOf(s, k))
    ensures Has(Printed(search, s), k) <==> NavValueOf(s, k).Some?
  {
    hide NavValueOf;
    GetPrinted(search, s, k);
  }

  /** The settings dialog is printed or implied by the section. */
  predicate PrintsSettings(s: NavState) {
    s.settingsDialogOpen || s.section == "me" || s.section == "settings"
  }

  /** An id after one trip through the query string. */
  function IdTrip(id: Option<string>): Option<string> {
    TrimmedValue(IfTruthy(id))
  }

  function RunTrip(s: NavState): Option<ApplicationRun> {
    if s.selectedApplicationRun.None? then None
    else
      var r := s.selectedApplicationRun.value;
      if Trim(r.applicationId) != "" && Trim(r.routineId) != "" && Trim(r.invocationId) != ""
      then Some(ApplicationRun(Trim(r.applicationId), Trim(r.routineId), Trim(r.invocationId))) else None
  }

  function WordTrip(word: string): string {
    if Trim(word) == "" then "all" else Trim(word)
  }

  function DueTrip(due: Due): Due {
    if due == "month" || due == "quarter" then "all" else due
  }

  function FiltersTrip(f: PlanningFilters): PlanningFilters {
    PlanningFilters(WordTrip(f.status), WordTrip(f.priority), Trim(f.milestone), DueTrip(f.due))
  }

  /** The patch that a printed state parses to, in terms of the state. */
  function TripPatch(s: NavState): Patch {
    var tab, settings, planning := s.section == "externalWork", PrintsSettings(s), s.section == "planning";
    Patch(
      Some(s.section),
      Some(IdTrip(s.selectedInvocationId)),
      Some(IdTrip(ApplicationOf(s))),
      Some(RunTrip(s)),
      Some(IdTrip(s.selectedEvidenceId)),
      Some(IdTrip(s.selectedAutomationId)),
      Some(IdTrip(s.selectedWorkItemId)),
      Some(if Truthy(s.selectedWorkItemId) then s.selectedWorkItemMode else "summary"),
      Some(if Truthy(s.selectedWorkItemId) then s.selectedWorkItemSection else "overview"),
      Some(if s.section == "task" then s.taskArea else "overview"),
      if tab then Some(s.selectedExternalWorkTab) else None,
      if settings then Some(true) else None,
      if settings then Some(if ShowsSettings(s) then s.settingsCategory else None) else None,
      if settings then Some(if ShowsSettings(s) then Trim(s.settingsQuery) else "") else None,
      if planning then Some(IdTrip(s.selectedPlanningProjectId)) else None,
      if planning then Some(s.planningProjectView) else None,
      if planning then Some(FiltersTrip(s.planningProjectFilters)) else None)
  }

  lemma {:induction false} SectionTrip(search: seq<Param>, s: NavState)
    ensures SectionParam(Printed(search, s)) == Some(s.section)
    ensures HasAny(Printed(search, s), NAVIGATION_SEARCH_KEYS)
  {
    hide IsSection, Printed;
    PrintedParam(search, s, Section);
    SectionIsToken(s.section);
    SearchKeys();
    assert Section in NAVIGATION_SEARCH_KEYS && Has(Printed(search, s), Section);
  }

  lemma {:induction false} SelectionsTrip(search: seq<Param>, s: NavState)
    ensures StringParam(Printed(search, s), Invocation) == IdTrip(s.selectedInvocationId)
    ensures StringParam(Printed(search, s), Application) == IdTrip(ApplicationOf(s))
    ensures StringParam(Printed(search, s), Evidence) == IdTrip(s.selectedEvidenceId)
    ensures StringParam(Printed(search, s), Automation) == IdTrip(s.selectedAutomationId)
    ensures StringParam(Printed(search, s), Task) == IdTrip(s.selectedWorkItemId)
  {
    hide Printed, Trim, StringParam;
    PrintedParam(search, s, Invocation);
    PrintedParam(search, s, Application);
    PrintedParam(search, s, Evidence);
    PrintedParam(search, s, Automation);
    PrintedParam(search, s, Task);
  }

  lemma {:induction false} RunIsTripped(search: seq<Param>, s: NavState)
    ensures RunParam(Printed(search, s)) == RunTrip(s)
  {
    hide Printed, Trim, StringParam;
    PrintedParam(search, s, Application);
    PrintedParam(search, s, Routine);
    PrintedParam(search, s, Run);
    EmptyTrim();
  }

  lemma {:induction false} WorkItemTrip(search: seq<Param>, s: NavState)
    ensures ModeOf(StringParam(Printed(search, s), TaskMode))
         == if Truthy(s.selectedWorkItemId) then s.selectedWorkItemMode else "summary"
    ensures WorkItemSectionOf(StringParam(Printed(search, s), TaskView))
         == if Truthy(s.selectedWorkItemId) then s.selectedWorkItemSection else "overview"
    ensures TaskAreaOf(StringParam(Printed(search, s), TaskAreaKey))
         == if s.section == "task" then s.taskArea else "overview"
  {
    hide Printed, Trim, StringParam, IsSection;
    PrintedParam(search, s, TaskMode);
    PrintedParam(search, s, TaskView);
    PrintedParam(search, s, TaskAreaKey);
    ShortToken("expert");
    WorkItemSectionIsToken(s.selectedWorkItemSection);
    WorkItemSectionIsToken(s.taskArea);
  }

  lemma {:induction false} TabTrip(search: seq<Param>, s: NavState)
    ensures MentionsExternalTab(Printed(search, s)) <==> s.section == "externalWork"
    ensures s.section == "externalWork"
       ==> TabOf(StringParam(Printed(search, s), ExternalTab)) == s.selectedExternalWorkTab
  {
    hide Printed, Trim, StringParam, IsSection;
    SectionTrip(search, s);
    PrintedParam(search, s, ExternalTab);
    ShortToken("pr");
  }

  lemma {:induction false} SettingsValues(s: NavState)
    ensures NavValueOf(s, SettingsOpen).Some? ==> PrintsSettings(s)
    ensures NavValueOf(s, SettingsCategory).Some? || NavValueOf(s, SettingsQuery).Some? ==> PrintsSettings(s)
    ensures PrintsSettings(s) && s.section != "me" && s.section != "settings"
       ==> NavValueOf(s, SettingsOpen) == Some("true")
  {
    hide Trim, IsSection;
  }

  lemma {:induction false} SettingsMentioned(search: seq<Param>, s: NavState)
    ensures MentionsSettings(Printed(search, s)) <==> PrintsSettings(s)
  {
    hide Printed, Trim, StringParam, IsSection, IsSettingsCategory, SectionParam, NavValueOf;
    SettingsValues(s);
    SectionTrip(search, s);
    GetPrinted(search, s, SettingsOpen);
    GetPrinted(search, s, SettingsCategory);
    GetPrinted(search, s, SettingsQuery);
  }

  lemma {:induction false} SettingsTrip(search: seq<Param>, s: NavState)
    ensures CategoryOf(StringParam(Printed(search, s), SettingsCategory))
         == (if ShowsSettings(s) then s.settingsCategory else None)
    ensures OrElse(StringParam(Printed(search, s), SettingsQuery), "")
         == (if ShowsSettings(s) then Trim(s.settingsQuery) else "")
  {
    hide Printed, Trim, StringParam, IsSection, IsSettingsCategory, ShowsSettings;
    PrintedParam(search, s, SettingsCategory);
    PrintedParam(search, s, SettingsQuery);
    TrimLaws(s.settingsQuery);
    if s.settingsCategory.Some? {
      CategoryIsToken(s.settingsCategory.value);
    }
  }

  lemma {:induction false} NoPlanningValue(s: NavState, k: Key)
    requires s.section != "planning" && k in PLANNING_KEYS
    ensures !k.Other? && NavValueOf(s, k).None?
  {
    hide IsSection;
  }

  lemma {:induction false} PlanningMentioned(search: seq<Param>, s: NavState)
    ensures MentionsPlanning(Printed(search, s)) <==> s.section == "planning"
  {
    hide Printed, Trim, StringParam, IsSection, NavValueOf, PLANNING_KEYS, SectionParam;
    SectionTrip(search, s);
    if s.section != "planning" && HasAny(Printed(search, s), PLANNING_KEYS) {
      var k :| k in PLANNING_KEYS && Has(Printed(search, s), k);
      NoPlanningValue(s, k);
      PrintedParam(search, s, k);
    }
  }

  lemma {:induction false} PlanningTrip(search: seq<Param>, s: NavState)
    requires s.section == "planning"
    ensures StringParam(Printed(search, s), PlanningProject) == IdTrip(s.selectedPlanningProjectId)
    ensures ViewOf(StringParam(Printed(search, s), PlanningView)) == s.planningProjectView
  {
    hide Printed, Trim, StringParam, IsSection;
    PrintedParam(search, s, PlanningProject);
    PrintedParam(search, s, PlanningView);
    ViewIsToken(s.planningProjectView);
  }

  lemma {:induction false} WordsTrip(search: seq<Param>, s: NavState)
    requires s.section == "planning"
    ensures OrElse(StringParam(Printed(search, s), PlanningStatus), "all") == WordTrip(s.planningProjectFilters.status)
    ensures OrElse(StringParam(Printed(search, s), PlanningPriority), "all")
         == WordTrip(s.planningProjectFilters.priority)
  {
    hide Printed, Trim, StringParam, IsSection, IsDue;
    PrintedParam(search, s, PlanningStatus);
    PrintedParam(search, s, PlanningPriority);
    AllIsToken();
  }

  lemma {:induction false} MilestoneTrip(search: seq<Param>, s: NavState)
    requires s.section == "planning"
    ensures OrElse(StringParam(Printed(search, s), PlanningMilestone), "") == Trim(s.planningProjectFilters.milestone)
  {
    hide Printed, Trim, StringParam, IsSection, IsDue;
    PrintedParam(search, s, PlanningMilestone);
    EmptyTrim();
  }

  lemma {:induction false} DueTripLemma(search: seq<Param>, s: NavState)
    requires s.section == "planning"
    ensures DueOf(StringParam(Printed(search, s), PlanningDue)) == DueTrip(s.planningProjectFilters.due)
  {
    hide Printed, Trim, StringParam, IsSection;
    PrintedParam(search, s, PlanningDue);
    DueIsToken(s.planningProjectFilters.due);
  }

  lemma {:induction false} FiltersTripLemma(search: seq<Param>, s: NavState)
    requires s.section == "planning"
    ensures FiltersParam(Printed(search, s)) == FiltersTrip(s.planningProjectFilters)
  {
    hide Printed, Trim, StringParam, IsSection, IsDue, OrElse, DueOf, WordTrip, DueTrip;
    WordsTrip(search, s);
    MilestoneTrip(search, s);
    DueTripLemma(search, s);
  }

  /** Main lemma: the patch read from a printed state, whatever query it was printed over. In
      particular the tab, settings and planning fields are absent exactly when the section does
      not ask for them (for settings: and the dialog is closed). */
  lemma {:induction false} ParsedPrinted(search: seq<Param>, s: NavState)
    ensures Parsed(Printed(search, s)) == TripPatch(s)
  {
    hide Printed, Trim, StringParam, SectionParam, RunParam, FiltersParam, IsSection, HasAny, MentionsSettings;
    hide MentionsPlanning, MentionsExternalTab, ModeOf, WorkItemSectionOf, TaskAreaOf, TabOf, CategoryOf, ViewOf;
    hide IdTrip, RunTrip, FiltersTrip, ShowsSettings, PrintsSettings, ApplicationOf, Truthy, OrElse;
    SectionTrip(search, s);
    SelectionsTrip(search, s);
    RunIsTripped(search, s);
    WorkItemTrip(search, s);
    TabTrip(search, s);
    SettingsMentioned(search, s);
    SettingsTrip(search, s);
    PlanningMentioned(search, s);
    if s.section == "planning" {
      PlanningTrip(search, s);
      FiltersTripLemma(search, s);
    }
  }

  // ------------------------------------------------------------- restoring a printed state

  /** An id that survives the query string: absent, or trimmed and not empty. */
  predicate CleanId(id: Option<string>) {
    id.Some? ==> id.value != "" && Trimmed(id.value)
  }

  predicate CleanRun(s: NavState) {
    if s.selectedApplicationRun.Some? then
      var r := s.selectedApplicationRun.value;
      && CleanId(Some(r.applicationId)) && CleanId(Some(r.routineId)) && CleanId(Some(r.invocationId))
      && s.selectedApplicationId == Some(r.applicationId)
    else CleanId(s.selectedApplicationId)
  }

  predicate CleanFilters(f: PlanningFilters) {
    && CleanId(Some(f.status)) && CleanId(Some(f.priority)) && Trimmed(f.milestone)
    && f.due != "month" && f.due != "quarter"
  }

  predicate CleanSelections(s: NavState) {
    && CleanId(s.selectedInvocationId) && CleanRun(s) && CleanId(s.selectedEvidenceId)
    && CleanId(s.selectedAutomationId) && CleanId(s.selectedWorkItemId)
  }

  predicate CleanTask(s: NavState) {
    && (s.selectedWorkItemId.None? ==> s.selectedWorkItemMode == "summary" && s.selectedWorkItemSection == "overview")
    && (s.section != "task" ==> s.taskArea == "overview")
  }

  /** The states that the query string can carry in full. */
  predicate Canonical(s: NavState) {
    && CleanSelections(s) && CleanTask(s)
    && (PrintsSettings(s) ==> s.settingsDialogOpen && Trimmed(s.settingsQuery))
    && (s.section == "planning" ==> CleanId(s.selectedPlanningProjectId) && CleanFilters(s.planningProjectFilters))
  }

  /** Whatever printing `s` does not mention is the same in both states. */
  predicate AgreeOnUnprinted(s: NavState, t: NavState) {
    && (s.section == "externalWork" || s.selectedExternalWorkTab == t.selectedExternalWorkTab)
    && (PrintsSettings(s) || (s.settingsDialogOpen == t.settingsDialogOpen && s.settingsCategory == t.settingsCategory
                              && s.settingsQuery == t.settingsQuery))
    && (s.section == "planning" || (s.selectedPlanningProjectId == t.selectedPlanningProjectId
                                    && s.planningProjectView == t.planningProjectView
                                    && s.planningProjectFilters == t.planningProjectFilters))
  }

  lemma {:induction false} IdTripClean(id: Option<string>)
    ensures IdTrip(id) == id <==> CleanId(id)
  {
    hide Trim, Trimmed;
    if id.Some? {
      TrimLaws(id.value);
    }
    EmptyTrim();
  }

  lemma {:induction false} RunTripClean(s: NavState)
    ensures IdTrip(ApplicationOf(s)) == s.selectedApplicationId && RunTrip(s) == s.selectedApplicationRun
       <==> CleanRun(s)
  {
    hide Trim, Trimmed;
    IdTripClean(ApplicationOf(s));
    if s.selectedApplicationRun.Some? {
      var r := s.selectedApplicationRun.value;
      TrimLaws(r.applicationId);
      TrimLaws(r.routineId);
      TrimLaws(r.invocationId);
      EmptyTrim();
    }
  }

  lemma {:induction false} FiltersTripClean(f: PlanningFilters)
    ensures FiltersTrip(f) == f <==> CleanFilters(f)
  {
    hide Trim, Trimmed;
    TrimLaws(f.status);
    TrimLaws(f.priority);
    TrimLaws(f.milestone);
    EmptyTrim();
    AllIsToken();
  }

  lemma {:induction false} SettingsTripClean(s: NavState)
    requires PrintsSettings(s)
    ensures (s.settingsDialogOpen && (if ShowsSettings(s) then s.settingsCategory else None) == s.settingsCategory
             && (if ShowsSettings(s) then Trim(s.settingsQuery) else "") == s.settingsQuery)
       <==> s.settingsDialogOpen && Trimmed(s.settingsQuery)
  {
    hide Trim, Trimmed;
    TrimLaws(s.settingsQuery);
  }

  lemma {:induction false} SelectionsRestored(s: NavState)
    ensures (&& IdTrip(s.selectedInvocationId) == s.selectedInvocationId
             && IdTrip(ApplicationOf(s)) == s.selectedApplicationId && RunTrip(s) == s.selectedApplicationRun
             && IdTrip(s.selectedEvidenceId) == s.selectedEvidenceId
             && IdTrip(s.selectedAutomationId) == s.selectedAutomationId
             && IdTrip(s.selectedWorkItemId) == s.selectedWorkItemId)
       <==> CleanSelections(s)
  {
    hide IdTrip, RunTrip, CleanId, CleanRun, ApplicationOf, IsSection;
    IdTripClean(s.selectedInvocationId);
    RunTripClean(s);
    IdTripClean(s.selectedEvidenceId);
    IdTripClean(s.selectedAutomationId);
    IdTripClean(s.selectedWorkItemId);
  }

  lemma {:induction false} TaskRestored(s: NavState)
    requires CleanSelections(s)
    ensures (&& (if Truthy(s.selectedWorkItemId) then s.selectedWorkItemMode else "summary") == s.selectedWorkItemMode
             && (if Truthy(s.selectedWorkItemId) then s.selectedWorkItemSection else "overview")
               == s.selectedWorkItemSection
             && (if s.section == "task" then s.taskArea else "overview") == s.taskArea)
       <==> CleanTask(s)
  {
    hide CleanRun, IsSection;
    assert CleanId(s.selectedWorkItemId);
  }

  lemma {:induction false} SettingsRestored(s: NavState, t: NavState)
    ensures (if PrintsSettings(s) then
               && s.settingsDialogOpen
               && (if ShowsSettings(s) then s.settingsCategory else None) == s.settingsCategory
               && (if ShowsSettings(s) then Trim(s.settingsQuery) else "") == s.settingsQuery
             else
               && t.settingsDialogOpen == s.settingsDialogOpen && t.settingsCategory == s.settingsCategory
               && t.settingsQuery == s.settingsQuery)
       <==> (PrintsSettings(s) ==> s.settingsDialogOpen && Trimmed(s.settingsQuery))
            && (|| PrintsSettings(s)
                || (s.settingsDialogOpen == t.settingsDialogOpen && s.settingsCategory == t.settingsCategory
                    && s.settingsQuery == t.settingsQuery))
  {
    hide Trim, Trimmed, IsSection;
    if PrintsSettings(s) {
      SettingsTripClean(s);
    }
  }

  lemma {:induction false} PlanningRestored(s: NavState)
    ensures (&& IdTrip(s.selectedPlanningProjectId) == s.selectedPlanningProjectId
             && FiltersTrip(s.planningProjectFilters) == s.planningProjectFilters)
       <==> CleanId(s.selectedPlanningProjectId) && CleanFilters(s.planningProjectFilters)
  {
    hide IdTrip, FiltersTrip, CleanId, CleanFilters;
    IdTripClean(s.selectedPlanningProjectId);
    FiltersTripClean(s.planningProjectFilters);
  }

  /** Main result: opening, in any store `t`, a location printed from `s` puts the store into
      state `s` if and only if `s` is canonical and agrees with `t` on what printing leaves out. */
  lemma {:induction false} LocationRestores(search: seq<Param>, s: NavState, t: NavState)
    ensures Applied(t, Parsed(Printed(search, s))) == s <==> Canonical(s) && AgreeOnUnprinted(s, t)
  {
    hide Printed, Parsed, IdTrip, RunTrip, FiltersTrip, CleanId, CleanFilters, CleanSelections, CleanTask;
    hide ShowsSettings, PrintsSettings, Trim, Trimmed, ApplicationOf, Truthy, IsSection, IsWorkItemMode;
    hide IsWorkItemSection, IsTaskArea, IsExternalTab, IsSettingsCategory, IsPlanningView, IsDue;
    ParsedPrinted(search, s);
    SelectionsRestored(s);
    if CleanSelections(s) {
      TaskRestored(s);
    }
    SettingsRestored(s, t);
    PlanningRestored(s);
  }

  /** So a reload of its own location keeps a state if and only if the state is canonical. */
  lemma {:induction false} ReloadKeeps(search: seq<Param>, s: NavState)
    ensures Applied(s, Parsed(Printed(search, s))) == s <==> Canonical(s)
  {
    hide Printed, Parsed, Canonical, Applied;
    LocationRestores(search, s, s);
  }

  // ------------------------------------------------------------- syncing

  /** An id that prints as it is read back; the empty id is not printed at all. */
  predicate TidyId(id: Option<string>) {
    id.Some? ==> Trimmed(id.value)
  }

  predicate TidyPlanning(s: NavState) {
    s.section == "planning" ==> TidyId(s.selectedPlanningProjectId) && CleanFilters(s.planningProjectFilters)
  }

  /** The states whose own location is a fixed point. */
  predicate Tidy(s: NavState) {
    && TidyId(s.selectedInvocationId) && TidyId(s.selectedEvidenceId) && TidyId(s.selectedAutomationId)
    && TidyId(s.selectedWorkItemId)
    && (if s.selectedApplicationRun.Some? then
          var r := s.selectedApplicationRun.value;
          CleanId(Some(r.applicationId)) && CleanId(Some(r.routineId)) && CleanId(Some(r.invocationId))
        else TidyId(s.selectedApplicationId))
    && TidyPlanning(s)
  }

  lemma {:induction false} IdStable(id: Option<string>)
    ensures IfTruthy(IdTrip(id)) == IfTruthy(id) <==> TidyId(id)
    ensures TidyId(id) ==> (Truthy(IdTrip(id)) <==> Truthy(id))
  {
    hide Trim, Trimmed;
    if id.Some? {
      TrimLaws(id.value);
    }
    EmptyTrim();
  }

  /** The state after a trip of its own through the query string. */
  function Trip(s: NavState): NavState {
    Applied(s, TripPatch(s))
  }

  lemma {:induction false} RunStable(s: NavState)
    ensures (NavValueOf(Trip(s), Application) == NavValueOf(s, Application)
             && NavValueOf(Trip(s), Routine) == NavValueOf(s, Routine)
             && NavValueOf(Trip(s), Run) == NavValueOf(s, Run))
       <==> (if s.selectedApplicationRun.Some? then
               var r := s.selectedApplicationRun.value;
               CleanId(Some(r.applicationId)) && CleanId(Some(r.routineId)) && CleanId(Some(r.invocationId))
             else TidyId(s.selectedApplicationId))
  {
    hide Trim, Trimmed, IsSection, FiltersTrip, PrintsSettings, ShowsSettings;
    IdStable(ApplicationOf(s));
    if s.selectedApplicationRun.Some? {
      var r := s.selectedApplicationRun.value;
      TrimLaws(r.applicationId);
      TrimLaws(r.routineId);
      TrimLaws(r.invocationId);
      EmptyTrim();
    }
  }

  lemma {:induction false} FiltersStable(s: NavState)
    requires s.section == "planning"
    ensures (NavValueOf(Trip(s), PlanningStatus) == NavValueOf(s, PlanningStatus)
             && NavValueOf(Trip(s), PlanningPriority) == NavValueOf(s, PlanningPriority)
             && NavValueOf(Trip(s), PlanningMilestone) == NavValueOf(s, PlanningMilestone)
             && NavValueOf(Trip(s), PlanningDue) == NavValueOf(s, PlanningDue))
       <==> CleanFilters(s.planningProjectFilters)
  {
    hide Trim, Trimmed, IsSection, IdTrip, RunTrip, PrintsSettings, ShowsSettings;
    var f := s.planningProjectFilters;
    FiltersTripClean(f);
    TrimLaws(f.status);
    TrimLaws(f.priority);
    TrimLaws(f.milestone);
    EmptyTrim();
    AllIsToken();
  }

  lemma {:induction false} SettingsStable(s: NavState)
    ensures NavValueOf(Trip(s), SettingsOpen) == NavValueOf(s, SettingsOpen)
    ensures NavValueOf(Trip(s), SettingsCategory) == NavValueOf(s, SettingsCategory)
    ensures NavValueOf(Trip(s), SettingsQuery) == NavValueOf(s, SettingsQuery)
  {
    hide Trim, IsSection, IdTrip, RunTrip, FiltersTrip;
    TrimLaws(s.settingsQuery);
    EmptyTrim();
  }

  lemma {:induction false} TidyMeansStable(s: NavState, k: Key)
    requires Tidy(s)
    ensures NavValueOf(Trip(s), k) == NavValueOf(s, k)
  {
    hide Trim, Trimmed, IsSection, IdTrip, RunTrip, FiltersTrip, CleanId, TidyId, CleanFilters;
    IdStable(s.selectedInvocationId);
    IdStable(s.selectedEvidenceId);
    IdStable(s.selectedAutomationId);
    IdStable(s.selectedWorkItemId);
    IdStable(s.selectedPlanningProjectId);
    RunStable(s);
    SettingsStable(s);
    if s.section == "planning" {
      FiltersStable(s);
    }
  }

  lemma {:induction false} StableMeansTidy(s: NavState)
    requires SameValues(Trip(s), s)
    ensures Tidy(s)
  {
    hide Trim, Trimmed, IsSection, IdTrip, RunTrip, FiltersTrip, CleanId, TidyId, CleanFilters;
    assert forall k: Key :: NavValueOf(Trip(s), k) == NavValueOf(s, k);
    IdStable(s.selectedInvocationId);
    assert NavValueOf(Trip(s), Invocation) == NavValueOf(s, Invocation);
    IdStable(s.selectedEvidenceId);
    assert NavValueOf(Trip(s), Evidence) == NavValueOf(s, Evidence);
    IdStable(s.selectedAutomationId);
    assert NavValueOf(Trip(s), Automation) == NavValueOf(s, Automation);
    IdStable(s.selectedWorkItemId);
    assert NavValueOf(Trip(s), Task) == NavValueOf(s, Task);
    RunStable(s);
    if s.section == "planning" {
      IdStable(s.selectedPlanningProjectId);
      assert NavValueOf(Trip(s), PlanningProject) == NavValueOf(s, PlanningProject);
      FiltersStable(s);
    }
  }

  /** A printed location is left alone by a sync of the state that printed it if and only if that
      state is tidy. */
  lemma {:induction false} OwnLocationSettled(search: seq<Param>, s: NavState)
    ensures var url := Printed(search, s);
            Printed(url, Applied(s, Parsed(url))) == url <==> Tidy(s)
  {
    hide Printed, Parsed, Tidy, NavValueOf, Applied;
    var url := Printed(search, s);
    ParsedPrinted(search, s);
    var u := Applied(s, Parsed(url));
    assert u == Trip(s);
    PrintTwice(search, s, u);
    PrintedSame(search, u, s);
    if Tidy(s) {
      forall k: Key ensures NavValueOf(u, k) == NavValueOf(s, k) {
        TidyMeansStable(s, k);
      }
    } else if SameValues(u, s) {
      StableMeansTidy(s);
    }
  }

  datatype Synced = Synced(url: seq<Param>, store: NavState)

  /** One sync: the location is applied to the store, then the store is written to the location. */
  function Sync(x: Synced): Synced {
    var store := Applied(x.store, Parsed(x.url));
    Synced(Printed(x.url, store), store)
  }

  lemma {:induction false} ParamTidy(params: seq<Param>, key: Key)
    ensures CleanId(StringParam(params, key))
  {
    hide Trim, Trimmed, Get;
    if Has(params, key) {
      TrimLaws(Get(params, key).value);
    }
  }

  /** A location with a valid section leaves the store tidy. */
  lemma {:induction false} SectionMakesTidy(params: seq<Param>, s: NavState)
    requires SectionParam(params).Some?
    ensures Tidy(Applied(s, Parsed(params)))
  {
    hide Trim, Trimmed, IsSection, StringParam, Get;
    SectionPresent(params);
    ParamTidy(params, Invocation);
    ParamTidy(params, Application);
    ParamTidy(params, Routine);
    ParamTidy(params, Run);
    ParamTidy(params, Evidence);
    ParamTidy(params, Automation);
    ParamTidy(params, Task);
    ParamTidy(params, PlanningProject);
    ParamTidy(params, PlanningStatus);
    ParamTidy(params, PlanningPriority);
    ParamTidy(params, PlanningMilestone);
    AllIsToken();
    EmptyTrim();
  }

  lemma {:induction false} SectionPresent(params: seq<Param>)
    requires SectionParam(params).Some?
    ensures HasAny(params, NAVIGATION_SEARCH_KEYS)
  {
    SearchKeys();
    assert Section in NAVIGATION_SEARCH_KEYS && Has(params, Section);
  }

  /** Main result, first part: from a location with a valid section one sync settles the URL. */
  lemma {:induction false} SyncSettlesWithSection(x: Synced)
    requires SectionParam(x.url).Some?
    ensures Sync(Sync(x)).url == Sync(x).url
  {
    hide Printed, Parsed, Tidy, Applied, SectionParam;
    SectionMakesTidy(x.url, x.store);
    OwnLocationSettled(x.url, Sync(x).store);
  }

  /** Main result, second part: from any location and store two syncs settle the URL, and a third
      one settles the store too. */
  lemma {:induction false} SyncSettles(x: Synced)
    ensures Sync(Sync(Sync(x))).url == Sync(Sync(x)).url
    ensures Sync(Sync(Sync(Sync(x)))) == Sync(Sync(Sync(x)))
  {
    hide Printed, Parsed, Applied, SectionParam;
    SectionTrip(x.url, Sync(x).store);
    SyncSettlesWithSection(Sync(x));
    FixedUrlFixesStore(Sync(Sync(x)));
  }

  /** Once a sync leaves the URL alone, the next one leaves the store alone as well. */
  lemma {:induction false} FixedUrlFixesStore(x: Synced)
    requires Sync(x).url == x.url
    ensures Sync(Sync(x)) == Sync(x)
  {
    hide Printed, Parsed;
  }

  /** What one sync needs in order to settle the URL, in terms of the location and the store before
      it: a valid section in the location; or other navigation keys, with the planning fields given
      there or tidy in the store; or, when the location says nothing, a tidy store. */
  predicate SettlesAtOnce(x: Synced) {
    || SectionParam(x.url).Some?
    || (if HasAny(x.url, NAVIGATION_SEARCH_KEYS) then MentionsPlanning(x.url) || TidyPlanning(x.store)
        else Tidy(x.store))
  }

  /** A location without a section leaves the store tidy but for what it does not mention. */
  lemma {:induction false} TidyAfterPatch(params: seq<Param>, s: NavState)
    requires SectionParam(params).None? && HasAny(params, NAVIGATION_SEARCH_KEYS)
    ensures Tidy(Applied(s, Parsed(params))) <==> MentionsPlanning(params) || TidyPlanning(s)
  {
    hide Trim, Trimmed, IsSection, StringParam, Get, SectionParam, MentionsPlanning;
    ParamTidy(params, Invocation);
    ParamTidy(params, Application);
    ParamTidy(params, Routine);
    ParamTidy(params, Run);
    ParamTidy(params, Evidence);
    ParamTidy(params, Automation);
    ParamTidy(params, Task);
    ParamTidy(params, PlanningProject);
    ParamTidy(params, PlanningStatus);
    ParamTidy(params, PlanningPriority);
    ParamTidy(params, PlanningMilestone);
    AllIsToken();
    EmptyTrim();
  }

  /** Main result, exactly: one sync settles the URL if and only if the location and the store meet
      `SettlesAtOnce`. */
  lemma {:induction false} OneSyncSettles(x: Synced)
    ensures Sync(Sync(x)).url == Sync(x).url <==> SettlesAtOnce(x)
  {
    hide Printed, Tidy, TidyPlanning, SectionParam, MentionsPlanning, HasAny;
    OwnLocationSettled(x.url, Sync(x).store);
    if SectionParam(x.url).Some? {
      SectionMakesTidy(x.url, x.store);
    } else if HasAny(x.url, NAVIGATION_SEARCH_KEYS) {
      TidyAfterPatch(x.url, x.store);
    } else {
      NothingParsed(x.url, x.store);
    }
  }

  lemma {:induction false} NothingParsed(params: seq<Param>, s: NavState)
    requires !HasAny(params, NAVIGATION_SEARCH_KEYS)
    ensures Applied(s, Parsed(params)) == s
  {
    hide HasAny;
  }

  /** A failing input: on an empty location a planning store that filters by month prints a
      `planningDue` that the next sync drops. */
  lemma {:induction false} OneSyncIsNotEnough(s: NavState)
    requires s.section == "planning" && s.planningProjectFilters.due == "month"
    ensures Sync(Sync(Synced([], s))).url != Sync(Synced([], s)).url
  {
    hide Sync;
    OneSyncSettles(Synced([], s));
  }
}
