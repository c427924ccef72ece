/** The navigation part of the UI store, its printing into the query string and its parsing back
    (apps/web/src/store/ui-store.ts). Closed string unions are subset types of `string`, `null` is
    `None`, and an absent field of a patch is `None` as well. */
module Navigation {
  import opened Sequences
  import opened UrlParams

  predicate IsSection(s: string) {
    s in {"settings", "dashboard", "privateTutor", "mail", "localLibrary", "mySite", "me", "workBoard", "workspace",
          "documents", "workflowMemory", "canvas", "compare", "projects", "planning", "task", "externalWork",
          "autoRuns", "approvals", "evidence", "evalTrend", "automation", "routines", "agentSkills", "invocations",
          "agents", "devices", "discovery", "integrations", "tools", "review", "applications", "channels", "sessions",
          "economics", "audit", "myHosts", "siteSettings"}
  }

  type SectionKey = s: string | IsSection(s) witness "dashboard"

  predicate IsWorkItemMode(s: string) { s in {"summary", "expert"} }
  type WorkItemMode = s: string | IsWorkItemMode(s) witness "summary"

  predicate IsWorkItemSection(s: string) { s in {"overview", "process", "assets", "verification", "report", "trace"} }
  type WorkItemSection = s: string | IsWorkItemSection(s) witness "overview"

  predicate IsTaskArea(s: string) { s in {"overview", "process", "assets", "verification", "trace"} }
  type TaskArea = s: string | IsTaskArea(s) witness "overview"

  predicate IsExternalTab(s: string) { s in {"issue", "pr"} }
  type ExternalTab = s: string | IsExternalTab(s) witness "issue"

  predicate IsSettingsCategory(s: string) {
    s in {"execution", "connections", "automation", "governance", "resources", "diagnostics"}
  }
  type SettingsCategory = s: string | IsSettingsCategory(s) witness "execution"

  predicate IsPlanningView(s: string) { s in {"list", "board", "roadmap", "insights", "executions"} }
  type PlanningView = s: string | IsPlanningView(s) witness "list"

  predicate IsDue(s: string) { s in {"all", "overdue", "upcoming", "month", "quarter", "unscheduled"} }
  type Due = s: string | IsDue(s) witness "all"

  datatype ApplicationRun = ApplicationRun(applicationId: string, routineId: string, invocationId: string)

  datatype PlanningFilters = PlanningFilters(status: string, priority: string, milestone: string, due: Due)

  const DEFAULT_FILTERS := PlanningFilters("all", "all", "", "all")

  datatype NavState = NavState(
    section: SectionKey,
    selectedInvocationId: Option<string>,
    selectedApplicationId: Option<string>,
    selectedApplicationRun: Option<ApplicationRun>,
    selectedEvidenceId: Option<string>,
    selectedAutomationId: Option<string>,
    selectedWorkItemId: Option<string>,
    selectedWorkItemMode: WorkItemMode,
    selectedWorkItemSection: WorkItemSection,
    taskArea: TaskArea,
    selectedExternalWorkTab: ExternalTab,
    settingsDialogOpen: bool,
    settingsCategory: Option<SettingsCategory>,
    settingsQuery: string,
    selectedPlanningProjectId: Option<string>,
    planningProjectView: PlanningView,
    planningProjectFilters: PlanningFilters)

  /** What a location says about the store; `None` leaves a field alone. */
  datatype Patch = Patch(
    section: Option<SectionKey>,
    selectedInvocationId: Option<Option<string>>,
    selectedApplicationId: Option<Option<string>>,
    selectedApplicationRun: Option<Option<ApplicationRun>>,
    selectedEvidenceId: Option<Option<string>>,
    selectedAutomationId: Option<Option<string>>,
    selectedWorkItemId: Option<Option<string>>,
    selectedWorkItemMode: Option<WorkItemMode>,
    selectedWorkItemSection: Option<WorkItemSection>,
    taskArea: Option<TaskArea>,
    selectedExternalWorkTab: Option<ExternalTab>,
    settingsDialogOpen: Option<bool>,
    settingsCategory: Option<Option<SettingsCategory>>,
    settingsQuery: Option<string>,
    selectedPlanningProjectId: Option<Option<string>>,
    planningProjectView: Option<PlanningView>,
    planningProjectFilters: Option<PlanningFilters>)

  const EMPTY_PATCH :=
    Patch(None, None, None, None, None, None, None, None, None, None, None, None, None, None, None, None, None)

  // ------------------------------------------------------------- parsing

  const NAVIGATION_SEARCH_KEYS: seq<Key> :=
    [Section, Invocation, Application, Routine, Run, Evidence, Automation,
     PlanningProject, PlanningView, PlanningStatus, PlanningPriority, PlanningMilestone, PlanningDue,
     Task, TaskMode, TaskView, TaskAreaKey, ExternalTab, SettingsOpen, SettingsCategory, SettingsQuery]

  const PLANNING_KEYS: seq<Key> :=
    [PlanningProject, PlanningView, PlanningStatus, PlanningPriority, PlanningMilestone, PlanningDue]

  predicate HasAny(params: seq<Param>, keys: seq<Key>) {
    exists k :: k in keys && Has(params, k)
  }

  function TrimmedValue(value: Option<string>): Option<string> {
    if value.Some? && Trim(value.value) != "" then Some(Trim(value.value)) else None
  }

  /** The trimmed value of a parameter, or `None` when nothing is left of it. */
  function StringParam(params: seq<Param>, key: Key): Option<string> {
    TrimmedValue(Get(params, key))
  }

  function OrElse(value: Option<string>, default: string): string {
    if value.Some? then value.value else default
  }

  function SectionParam(params: seq<Param>): Option<SectionKey> {
    var value := StringParam(params, Section);
    if value.Some? && IsSection(value.value) then Some(value.value) else None
  }

  function RunParam(params: seq<Param>): Option<ApplicationRun> {
    var application, routine, run := StringParam(params, Application), StringParam(params, Routine),
        StringParam(params, Run);
    if application.Some? && routine.Some? && run.Some?
    then Some(ApplicationRun(application.value, routine.value, run.value)) else None
  }

  function FiltersParam(params: seq<Param>): PlanningFilters {
    PlanningFilters(OrElse(StringParam(params, PlanningStatus), "all"),
                    OrElse(StringParam(params, PlanningPriority), "all"),
                    OrElse(StringParam(params, PlanningMilestone), ""),
                    DueOf(StringParam(params, PlanningDue)))
  }

  function DueOf(value: Option<string>): Due {
    if value.Some? && value.value in {"overdue", "upcoming", "unscheduled"} then value.value else "all"
  }

  function ModeOf(value: Option<string>): WorkItemMode {
    if value == Some("expert") then "expert" else "summary"
  }

  function WorkItemSectionOf(value: Option<string>): WorkItemSection {
    if value.Some? && value.value in {"process", "assets", "verification", "report", "trace"}
    then value.value else "overview"
  }

  function TaskAreaOf(value: Option<string>): TaskArea {
    if value.Some? && value.value in {"process", "assets", "verification", "trace"} then value.value else "overview"
  }

  function TabOf(value: Option<string>): ExternalTab {
    if value == Some("pr") then "pr" else "issue"
  }

  function CategoryOf(value: Option<string>): Option<SettingsCategory> {
    if value.Some? && IsSettingsCategory(value.value) then Some(value.value) else None
  }

  function ViewOf(value: Option<string>): PlanningView {
    if value.Some? && value.value in {"board", "roadmap", "insights", "executions"} then value.value else "list"
  }

  predicate MentionsExternalTab(params: seq<Param>) {
    SectionParam(params) == Some("externalWork") || Has(params, ExternalTab)
  }

  predicate MentionsSettings(params: seq<Param>) {
    || SectionParam(params) == Some("me") || SectionParam(params) == Some("settings")
    || Get(params, SettingsOpen) == Some("true") || Has(params, SettingsCategory) || Has(params, SettingsQuery)
  }

  predicate MentionsPlanning(params: seq<Param>) {
    SectionParam(params) == Some("planning") || HasAny(params, PLANNING_KEYS)
  }

  /** What a query string says, field by field. */
  function Parsed(params: seq<Param>): Patch {
    if !HasAny(params, NAVIGATION_SEARCH_KEYS) then EMPTY_PATCH
    else
      var tab, settings, planning := MentionsExternalTab(params), MentionsSettings(params), MentionsPlanning(params);
      Patch(
        SectionParam(params),
        Some(StringParam(params, Invocation)),
        Some(StringParam(params, Application)),
        Some(RunParam(params)),
        Some(StringParam(params, Evidence)),
        Some(StringParam(params, Automation)),
        Some(StringParam(params, Task)),
        Some(ModeOf(StringParam(params, TaskMode))),
        Some(WorkItemSectionOf(StringParam(params, TaskView))),
        Some(TaskAreaOf(StringParam(params, TaskAreaKey))),
        if tab then Some(TabOf(StringParam(params, ExternalTab))) else None,
        if settings then Some(true) else None,
        if settings then Some(CategoryOf(StringParam(params, SettingsCategory))) else None,
        if settings then Some(OrElse(StringParam(params, SettingsQuery), "")) else None,
        if planning then Some(StringParam(params, PlanningProject)) else None,
        if planning then Some(ViewOf(StringParam(params, PlanningView))) else None,
        if planning then Some(FiltersParam(params)) else None)
  }

  method SomeKey(keys: seq<Key>, params: seq<Param>) returns (found: bool)
    ensures found <==> HasAny(params, keys)
  {
    found := false;
    for i := 0 to |keys|
      invariant found <==> exists j :: 0 <= j < i && Has(params, keys[j])
    {
      found := found || Has(params, keys[i]);
    }
  }

  method NavigationFromSearch(search: seq<Param>) returns (navigation: Patch)
    ensures navigation == Parsed(search)
  {
    navigation := EMPTY_PATCH;
    var hasNavigationParams := SomeKey(NAVIGATION_SEARCH_KEYS, search);
    if !hasNavigationParams {
      return;
    }
    var section := SectionParam(search);
    var applicationId := StringParam(search, Application);
    var routineId := StringParam(search, Routine);
    var runInvocationId := StringParam(search, Run);
    if section.Some? {
      navigation := navigation.(section := section);
    }
    navigation := navigation.(selectedInvocationId := Some(StringParam(search, Invocation)));
    navigation := navigation.(selectedApplicationId := Some(applicationId));
    if applicationId.Some? && routineId.Some? && runInvocationId.Some? {
      var run := ApplicationRun(applicationId.value, routineId.value, runInvocationId.value);
      navigation := navigation.(selectedApplicationRun := Some(Some(run)));
    } else {
      navigation := navigation.(selectedApplicationRun := Some(None));
    }
    navigation := navigation.(selectedEvidenceId := Some(StringParam(search, Evidence)));
    navigation := navigation.(selectedAutomationId := Some(StringParam(search, Automation)));
    navigation := navigation.(selectedWorkItemId := Some(StringParam(search, Task)));
    navigation := navigation.(selectedWorkItemMode := Some(ModeOf(StringParam(search, TaskMode))));
    navigation := navigation.(selectedWorkItemSection := Some(WorkItemSectionOf(StringParam(search, TaskView))));
    navigation := navigation.(taskArea := Some(TaskAreaOf(StringParam(search, TaskAreaKey))));
    if section == Some("externalWork") || Has(search, ExternalTab) {
      navigation := navigation.(selectedExternalWorkTab := Some(TabOf(StringParam(search, ExternalTab))));
    }
    if section == Some("me") || section == Some("settings") || Get(search, SettingsOpen) == Some("true")
       || Has(search, SettingsCategory) || Has(search, SettingsQuery) {
      navigation := navigation.(settingsDialogOpen := Some(true));
      navigation := navigation.(settingsCategory := Some(CategoryOf(StringParam(search, SettingsCategory))));
      navigation := navigation.(settingsQuery := Some(OrElse(StringParam(search, SettingsQuery), "")));
    }
    var planning := SomeKey(PLANNING_KEYS, search);
    if section == Some("planning") || planning {
      navigation := navigation.(selectedPlanningProjectId := Some(StringParam(search, PlanningProject)));
      navigation := navigation.(planningProjectView := Some(ViewOf(StringParam(search, PlanningView))));
      navigation := navigation.(planningProjectFilters := Some(FiltersParam(search)));
    }
  }

  function Over<T>(patched: Option<T>, current: T): T {
    if patched.Some? then patched.value else current
  }

  /** The store after a patch: every field the patch gives, the old value of the others. */
  function Applied(s: NavState, p: Patch): NavState {
    NavState(
      Over(p.section, s.section),
      Over(p.selectedInvocationId, s.selectedInvocationId),
      Over(p.selectedApplicationId, s.selectedApplicationId),
      Over(p.selectedApplicationRun, s.selectedApplicationRun),
      Over(p.selectedEvidenceId, s.selectedEvidenceId),
      Over(p.selectedAutomationId, s.selectedAutomationId),
      Over(p.selectedWorkItemId, s.selectedWorkItemId),
      Over(p.selectedWorkItemMode, s.selectedWorkItemMode),
      Over(p.selectedWorkItemSection, s.selectedWorkItemSection),
      Over(p.taskArea, s.taskArea),
      Over(p.selectedExternalWorkTab, s.selectedExternalWorkTab),
      Over(p.settingsDialogOpen, s.settingsDialogOpen),
      Over(p.settingsCategory, s.settingsCategory),
      Over(p.settingsQuery, s.settingsQuery),
      Over(p.selectedPlanningProjectId, s.selectedPlanningProjectId),
      Over(p.planningProjectView, s.planningProjectView),
      Over(p.planningProjectFilters, s.planningProjectFilters))
  }

  /** The store object, whose fields a patch overwrites in place. */
  class UiState {
    var section: SectionKey
    var selectedInvocationId: Option<string>
    var selectedApplicationId: Option<string>
    var selectedApplicationRun: Option<ApplicationRun>
    var selectedEvidenceId: Option<string>
    var selectedAutomationId: Option<string>
    var selectedWorkItemId: Option<string>
    var selectedWorkItemMode: WorkItemMode
    var selectedWorkItemSection: WorkItemSection
    var taskArea: TaskArea
    var selectedExternalWorkTab: ExternalTab
    var settingsDialogOpen: bool
    var settingsCategory: Option<SettingsCategory>
    var settingsQuery: string
    var selectedPlanningProjectId: Option<string>
    var planningProjectView: PlanningView
    var planningProjectFilters: PlanningFilters

    function Snapshot(): NavState
      reads this
    {
      NavState(section, selectedInvocationId, selectedApplicationId, selectedApplicationRun, selectedEvidenceId,
               selectedAutomationId, selectedWorkItemId, selectedWorkItemMode, selectedWorkItemSection, taskArea,
               selectedExternalWorkTab, settingsDialogOpen, settingsCategory, settingsQuery, selectedPlanningProjectId,
               planningProjectView, planningProjectFilters)
    }

    constructor (state: NavState)
      ensures Snapshot() == state
    {
      section := state.section;
      selectedInvocationId := state.selectedInvocationId;
      selectedApplicationId := state.selectedApplicationId;
      selectedApplicationRun := state.selectedApplicationRun;
      selectedEvidenceId := state.selectedEvidenceId;
      selectedAutomationId := state.selectedAutomationId;
      selectedWorkItemId := state.selectedWorkItemId;
      selectedWorkItemMode := state.selectedWorkItemMode;
      selectedWorkItemSection := state.selectedWorkItemSection;
      taskArea := state.taskArea;
      selectedExternalWorkTab := state.selectedExternalWorkTab;
      settingsDialogOpen := state.settingsDialogOpen;
      settingsCategory := state.settingsCategory;
      settingsQuery := state.settingsQuery;
      selectedPlanningProjectId := state.selectedPlanningProjectId;
      planningProjectView := state.planningProjectView;
      planningProjectFilters := state.planningProjectFilters;
    }

    method ApplySelections(navigation: Patch)
      modifies `section, `selectedInvocationId, `selectedApplicationId, `selectedApplicationRun
      modifies `selectedEvidenceId, `selectedAutomationId
      ensures section == Over(navigation.section, old(section))
      ensures selectedInvocationId == Over(navigation.selectedInvocationId, old(selectedInvocationId))
      ensures selectedApplicationId == Over(navigation.selectedApplicationId, old(selectedApplicationId))
      ensures selectedApplicationRun == Over(navigation.selectedApplicationRun, old(selectedApplicationRun))
      ensures selectedEvidenceId == Over(navigation.selectedEvidenceId, old(selectedEvidenceId))
      ensures selectedAutomationId == Over(navigation.selectedAutomationId, old(selectedAutomationId))
    {
      if navigation.section.Some? { section := navigation.section.value; }
      if navigation.selectedInvocationId.Some? { selectedInvocationId := navigation.selectedInvocationId.value; }
      if navigation.selectedApplicationId.Some? { selectedApplicationId := navigation.selectedApplicationId.value; }
      if navigation.selectedApplicationRun.Some? { selectedApplicationRun := navigation.selectedApplicationRun.value; }
      if navigation.selectedEvidenceId.Some? { selectedEvidenceId := navigation.selectedEvidenceId.value; }
      if navigation.selectedAutomationId.Some? { selectedAutomationId := navigation.selectedAutomationId.value; }
    }

    method ApplyWorkItem(navigation: Patch)
      modifies `selectedWorkItemId, `selectedWorkItemMode, `selectedWorkItemSection, `taskArea, `selectedExternalWorkTab
      ensures selectedWorkItemId == Over(navigation.selectedWorkItemId, old(selectedWorkItemId))
      ensures selectedWorkItemMode == Over(navigation.selectedWorkItemMode, old(selectedWorkItemMode))
      ensures selectedWorkItemSection == Over(navigation.selectedWorkItemSection, old(selectedWorkItemSection))
      ensures taskArea == Over(navigation.taskArea, old(taskArea))
      ensures selectedExternalWorkTab == Over(navigation.selectedExternalWorkTab, old(selectedExternalWorkTab))
    {
      if navigation.selectedWorkItemId.Some? { selectedWorkItemId := navigation.selectedWorkItemId.value; }
      if navigation.selectedWorkItemMode.Some? { selectedWorkItemMode := navigation.selectedWorkItemMode.value; }
      if navigation.selectedWorkItemSection.Some? {
        selectedWorkItemSection := navigation.selectedWorkItemSection.value;
      }
      if navigation.taskArea.Some? { taskArea := navigation.taskArea.value; }
      if navigation.selectedExternalWorkTab.Some? {
        selectedExternalWorkTab := navigation.selectedExternalWorkTab.value;
      }
    }

    method ApplySettings(navigation: Patch)
      modifies `settingsDialogOpen, `settingsCategory, `settingsQuery
      ensures settingsDialogOpen == Over(navigation.settingsDialogOpen, old(settingsDialogOpen))
      ensures settingsCategory == Over(navigation.settingsCategory, old(settingsCategory))
      ensures settingsQuery == Over(navigation.settingsQuery, old(settingsQuery))
    {
      if navigation.settingsDialogOpen.Some? { settingsDialogOpen := navigation.settingsDialogOpen.value; }
      if navigation.settingsCategory.Some? { settingsCategory := navigation.settingsCategory.value; }
      if navigation.settingsQuery.Some? { settingsQuery := navigation.settingsQuery.value; }
    }

    method ApplyPlanning(navigation: Patch)
      modifies `selectedPlanningProjectId, `planningProjectView, `planningProjectFilters
      ensures selectedPlanningProjectId == Over(navigation.selectedPlanningProjectId, old(selectedPlanningProjectId))
      ensures planningProjectView == Over(navigation.planningProjectView, old(planningProjectView))
      ensures planningProjectFilters == Over(navigation.planningProjectFilters, old(planningProjectFilters))
    {
      if navigation.selectedPlanningProjectId.Some? {
        selectedPlanningProjectId := navigation.selectedPlanningProjectId.value;
      }
      if navigation.planningProjectView.Some? { planningProjectView := navigation.planningProjectView.value; }
      if navigation.planningProjectFilters.Some? { planningProjectFilters := navigation.planningProjectFilters.value; }
    }

    /** Every field that the patch gives is overwritten, the others stay. */
    method ApplyUrlNavigation(navigation: Patch)
      modifies this
      ensures Snapshot() == Applied(old(Snapshot()), navigation)
    {
      hide IsSection, IsWorkItemMode, IsWorkItemSection, IsTaskArea, IsExternalTab, IsSettingsCategory, IsPlanningView;
      hide IsDue;
      ApplySelections(navigation);
      ApplyWorkItem(navigation);
      ApplySettings(navigation);
      ApplyPlanning(navigation);
    }
  }

  // ------------------------------------------------------------- printing

  /** The order in which printing visits the navigation keys. */
  const PRINT_ORDER: seq<Key> :=
    [Section, Invocation, Application, Routine, Run, Evidence, Automation, Task, TaskMode, TaskView, TaskAreaKey,
     ExternalTab, SettingsOpen, SettingsCategory, SettingsQuery,
     PlanningProject, PlanningView, PlanningStatus, PlanningPriority, PlanningMilestone, PlanningDue]

  /** A value that JavaScript takes for true. */
  predicate Truthy(value: Option<string>) {
    value.Some? && value.value != ""
  }

  function When(condition: bool, value: string): Option<string> {
    if condition then Some(value) else None
  }

  function IfTruthy(value: Option<string>): Option<string> {
    if Truthy(value) then value else None
  }

  function ApplicationOf(s: NavState): Option<string> {
    if s.selectedApplicationRun.Some? then Some(s.selectedApplicationRun.value.applicationId)
        else s.selectedApplicationId
  }

  predicate ShowsSettings(s: NavState) {
    s.settingsDialogOpen || s.section == "settings"
  }

  /** The value a state gives to each navigation key, if any. */
  function NavValueOf(s: NavState, k: Key): Option<string> {
    match k
    case Section => Some(s.section)
    case Invocation => IfTruthy(s.selectedInvocationId)
    case Application => IfTruthy(ApplicationOf(s))
    case Routine => if s.selectedApplicationRun.Some? then Some(s.selectedApplicationRun.value.routineId) else None
    case Run => if s.selectedApplicationRun.Some? then Some(s.selectedApplicationRun.value.invocationId) else None
    case Evidence => IfTruthy(s.selectedEvidenceId)
    case Automation => IfTruthy(s.selectedAutomationId)
    case Task => IfTruthy(s.selectedWorkItemId)
    case TaskMode => When(Truthy(s.selectedWorkItemId) && s.selectedWorkItemMode == "expert", "expert")
    case TaskView =>
      When(Truthy(s.selectedWorkItemId) && s.selectedWorkItemSection != "overview", s.selectedWorkItemSection)
    case TaskAreaKey => When(s.section == "task" && s.taskArea != "overview", s.taskArea)
    case ExternalTab => When(s.section == "externalWork" && s.selectedExternalWorkTab == "pr", "pr")
    case SettingsOpen => When(s.settingsDialogOpen && s.section != "me" && s.section != "settings", "true")
    case SettingsCategory => if ShowsSettings(s) && s.settingsCategory.Some? then Some(s.settingsCategory.value)
        else None
    case SettingsQuery => When(ShowsSettings(s) && Trim(s.settingsQuery) != "", Trim(s.settingsQuery))
    case PlanningProject => if s.section == "planning" then IfTruthy(s.selectedPlanningProjectId) else None
    case PlanningView => When(s.section == "planning", s.planningProjectView)
    case PlanningStatus =>
      When(s.section == "planning" && s.planningProjectFilters.status != "all", s.planningProjectFilters.status)
    case PlanningPriority =>
      When(s.section == "planning" && s.planningProjectFilters.priority != "all", s.planningProjectFilters.priority)
    case PlanningMilestone =>
      When(s.section == "planning" && s.planningProjectFilters.milestone != "", s.planningProjectFilters.milestone)
    case PlanningDue =>
      When(s.section == "planning" && s.planningProjectFilters.due != "all", s.planningProjectFilters.due)
    case Other(_) => None
  }

  function NavValue(s: NavState): Key -> Option<string> {
    (k: Key) => NavValueOf(s, k)
  }

  function OtherThan(keys: seq<Key>): Param -> bool {
    (p: Param) => p.key !in keys
  }

  /** The parameters that navigation does not own, with their order and multiplicity. */
  function Foreign(params: seq<Param>): seq<Param> {
    Filter(params, OtherThan(NAVIGATION_SEARCH_KEYS))
  }

  /** Printing: the foreign parameters, then the state's own. */
  function Printed(search: seq<Param>, s: NavState): seq<Param> {
    Foreign(search) + Collect(PRINT_ORDER, NavValue(s))
  }

  /** Position of a navigation key in `PRINT_ORDER`. */
  function PrintRank(k: Key): nat {
    match k
    case Section => 0 case Invocation => 1 case Application => 2 case Routine => 3 case Run => 4 case Evidence => 5
    case Automation => 6 case Task => 7 case TaskMode => 8 case TaskView => 9 case TaskAreaKey => 10
    case ExternalTab => 11 case SettingsOpen => 12 case SettingsCategory => 13 case SettingsQuery => 14
    case PlanningProject => 15 case PlanningView => 16 case PlanningStatus => 17 case PlanningPriority => 18
    case PlanningMilestone => 19 case PlanningDue => 20 case Other(_) => 21
  }

  lemma {:induction false} RankAt(i: nat)
    requires i < |PRINT_ORDER|
    ensures PrintRank(PRINT_ORDER[i]) == i && !PRINT_ORDER[i].Other?
  {
  }

  lemma {:induction false} PrintOrderAt(k: Key)
    requires !k.Other?
    ensures PrintRank(k) < |PRINT_ORDER| && PRINT_ORDER[PrintRank(k)] == k
  {
  }

  /** Printing visits every navigation key once and no other. */
  lemma {:induction false} PrintOrder()
    ensures Distinct(PRINT_ORDER)
    ensures forall k: Key :: k in PRINT_ORDER <==> !k.Other?
  {
    hide PrintRank;
    forall i, j | 0 <= i < j < |PRINT_ORDER| ensures PRINT_ORDER[i] != PRINT_ORDER[j] {
      RankAt(i);
      RankAt(j);
    }
    forall k: Key ensures k in PRINT_ORDER <==> !k.Other? {
      if !k.Other? {
        PrintOrderAt(k);
      } else if i :| 0 <= i < |PRINT_ORDER| && PRINT_ORDER[i] == k {
        RankAt(i);
      }
    }
  }

  lemma {:induction false} SearchKey(k: Key)
    requires !k.Other?
    ensures k in NAVIGATION_SEARCH_KEYS
  {
    var i := match k
      case Section => 0 case Invocation => 1 case Application => 2 case Routine => 3 case Run => 4 case Evidence => 5
      case Automation => 6 case PlanningProject => 7 case PlanningView => 8 case PlanningStatus => 9
      case PlanningPriority => 10 case PlanningMilestone => 11 case PlanningDue => 12 case Task => 13
      case TaskMode => 14 case TaskView => 15 case TaskAreaKey => 16 case ExternalTab => 17 case SettingsOpen => 18
      case SettingsCategory => 19 case _ => 20;
    assert NAVIGATION_SEARCH_KEYS[i] == k;
  }

  lemma {:induction false} NotOther(i: nat)
    requires i < |NAVIGATION_SEARCH_KEYS|
    ensures !NAVIGATION_SEARCH_KEYS[i].Other?
  {
  }

  lemma {:induction false} SearchKeys()
    ensures forall k: Key :: k in NAVIGATION_SEARCH_KEYS <==> !k.Other?
  {
    forall k: Key ensures k in NAVIGATION_SEARCH_KEYS <==> !k.Other? {
      if !k.Other? {
        SearchKey(k);
      } else if i :| 0 <= i < |NAVIGATION_SEARCH_KEYS| && NAVIGATION_SEARCH_KEYS[i] == k {
        NotOther(i);
      }
    }
  }

  /** The list after printing has visited the first `n` keys. */
  function PrintedUpTo(base: seq<Param>, s: NavState, n: nat): seq<Param>
    requires n <= 21
  {
    base + Collect(PRINT_ORDER[..n], NavValue(s))
  }

  ghost predicate AllOther(base: seq<Param>) {
    forall p :: p in base ==> p.key.Other?
  }

  /** One step of printing: the `i`-th key is set when it has a value. */
  lemma {:induction false} PrintStep(base: seq<Param>, s: NavState, i: nat, key: Key)
    requires PrintRank(key) == i < 21 && AllOther(base)
    ensures PrintedUpTo(base, s, i + 1) == Put(PrintedUpTo(base, s, i), key, NavValueOf(s, key))
  {
    hide NavValueOf, Put, PRINT_ORDER;
    PrintOrderAt(key);
    PrintOrder();
    CollectStep(base, PRINT_ORDER, NavValue(s), i);
  }

  /** Section and selected ids. */
  method PrintSelections(params: UrlSearchParams, state: NavState, ghost base: seq<Param>)
    requires AllOther(base)
    requires params.list == PrintedUpTo(base, state, 0)
    modifies params
    ensures params.list == PrintedUpTo(base, state, 7)
  {
    hide PrintedUpTo, Set, AllOther, Trim, PRINT_ORDER, IsSection, IsWorkItemMode, IsWorkItemSection, IsTaskArea;
    hide IsExternalTab, IsSettingsCategory, IsPlanningView, IsDue;
    PrintStep(base, state, 0, Section);
    params.SetKey(Section, state.section);
    assert params.list == PrintedUpTo(base, state, 1);
    PrintStep(base, state, 1, Invocation);
    if Truthy(state.selectedInvocationId) {
      params.SetKey(Invocation, state.selectedInvocationId.value);
    }
    var applicationId := ApplicationOf(state);
    assert params.list == PrintedUpTo(base, state, 2);
    PrintStep(base, state, 2, Application);
    if Truthy(applicationId) {
      params.SetKey(Application, applicationId.value);
    }
    assert params.list == PrintedUpTo(base, state, 3);
    PrintStep(base, state, 3, Routine);
    if state.selectedApplicationRun.Some? {
      params.SetKey(Routine, state.selectedApplicationRun.value.routineId);
    }
    assert params.list == PrintedUpTo(base, state, 4);
    PrintStep(base, state, 4, Run);
    if state.selectedApplicationRun.Some? {
      params.SetKey(Run, state.selectedApplicationRun.value.invocationId);
    }
    assert params.list == PrintedUpTo(base, state, 5);
    PrintStep(base, state, 5, Evidence);
    if Truthy(state.selectedEvidenceId) {
      params.SetKey(Evidence, state.selectedEvidenceId.value);
    }
    assert params.list == PrintedUpTo(base, state, 6);
    PrintStep(base, state, 6, Automation);
    if Truthy(state.selectedAutomationId) {
      params.SetKey(Automation, state.selectedAutomationId.value);
    }
  }

  /** Task detail, task area and external-work tab. */
  method PrintWorkItem(params: UrlSearchParams, state: NavState, ghost base: seq<Param>)
    requires AllOther(base)
    requires params.list == PrintedUpTo(base, state, 7)
    modifies params
    ensures params.list == PrintedUpTo(base, state, 12)
  {
    hide PrintedUpTo, Set, AllOther, Trim, PRINT_ORDER, IsSection, IsWorkItemMode, IsWorkItemSection, IsTaskArea;
    hide IsExternalTab, IsSettingsCategory, IsPlanningView, IsDue;
    PrintStep(base, state, 7, Task);
    if Truthy(state.selectedWorkItemId) {
      params.SetKey(Task, state.selectedWorkItemId.value);
    }
    assert params.list == PrintedUpTo(base, state, 8);
    PrintStep(base, state, 8, TaskMode);
    if Truthy(state.selectedWorkItemId) && state.selectedWorkItemMode == "expert" {
      params.SetKey(TaskMode, "expert");
    }
    assert params.list == PrintedUpTo(base, state, 9);
    PrintStep(base, state, 9, TaskView);
    if Truthy(state.selectedWorkItemId) && state.selectedWorkItemSection != "overview" {
      params.SetKey(TaskView, state.selectedWorkItemSection);
    }
    assert params.list == PrintedUpTo(base, state, 10);
    PrintStep(base, state, 10, TaskAreaKey);
    if state.section == "task" && state.taskArea != "overview" {
      params.SetKey(TaskAreaKey, state.taskArea);
    }
    assert params.list == PrintedUpTo(base, state, 11);
    PrintStep(base, state, 11, ExternalTab);
    if state.section == "externalWork" && state.selectedExternalWorkTab == "pr" {
      params.SetKey(ExternalTab, "pr");
    }
  }

  /** The settings dialog. */
  method PrintSettings(params: UrlSearchParams, state: NavState, ghost base: seq<Param>)
    requires AllOther(base)
    requires params.list == PrintedUpTo(base, state, 12)
    modifies params
    ensures params.list == PrintedUpTo(base, state, 15)
  {
    hide PrintedUpTo, Set, AllOther, Trim, PRINT_ORDER, IsSection, IsWorkItemMode, IsWorkItemSection, IsTaskArea;
    hide IsExternalTab, IsSettingsCategory, IsPlanningView, IsDue;
    PrintStep(base, state, 12, SettingsOpen);
    if state.settingsDialogOpen && state.section != "me" && state.section != "settings" {
      params.SetKey(SettingsOpen, "true");
    }
    assert params.list == PrintedUpTo(base, state, 13);
    PrintStep(base, state, 13, SettingsCategory);
    if (state.settingsDialogOpen || state.section == "settings") && state.settingsCategory.Some? {
      params.SetKey(SettingsCategory, state.settingsCategory.value);
    }
    assert params.list == PrintedUpTo(base, state, 14);
    PrintStep(base, state, 14, SettingsQuery);
    if (state.settingsDialogOpen || state.section == "settings") && Trim(state.settingsQuery) != "" {
      params.SetKey(SettingsQuery, Trim(state.settingsQuery));
    }
  }

  /** The planning workspace. */
  method PrintPlanning(params: UrlSearchParams, state: NavState, ghost base: seq<Param>)
    requires AllOther(base)
    requires params.list == PrintedUpTo(base, state, 15)
    modifies params
    ensures params.list == PrintedUpTo(base, state, 21)
  {
    hide PrintedUpTo, Set, AllOther, Trim, PRINT_ORDER, IsSection, IsWorkItemMode, IsWorkItemSection, IsTaskArea;
    hide IsExternalTab, IsSettingsCategory, IsPlanningView, IsDue;
    PrintStep(base, state, 15, PlanningProject);
    if state.section == "planning" && Truthy(state.selectedPlanningProjectId) {
      params.SetKey(PlanningProject, state.selectedPlanningProjectId.value);
    }
    assert params.list == PrintedUpTo(base, state, 16);
    PrintStep(base, state, 16, PlanningView);
    if state.section == "planning" {
      params.SetKey(PlanningView, state.planningProjectView);
    }
    var filters := state.planningProjectFilters;
    assert params.list == PrintedUpTo(base, state, 17);
    PrintStep(base, state, 17, PlanningStatus);
    if state.section == "planning" && filters.status != "all" {
      params.SetKey(PlanningStatus, filters.status);
    }
    assert params.list == PrintedUpTo(base, state, 18);
    PrintStep(base, state, 18, PlanningPriority);
    if state.section == "planning" && filters.priority != "all" {
      params.SetKey(PlanningPriority, filters.priority);
    }
    assert params.list == PrintedUpTo(base, state, 19);
    PrintStep(base, state, 19, PlanningMilestone);
    if state.section == "planning" && filters.milestone != "" {
      params.SetKey(PlanningMilestone, filters.milestone);
    }
    assert params.list == PrintedUpTo(base, state, 20);
    PrintStep(base, state, 20, PlanningDue);
    if state.section == "planning" && filters.due != "all" {
      params.SetKey(PlanningDue, filters.due);
    }
  }

  /** Deleting every navigation key leaves the foreign parameters. */
  method DeleteNavigationKeys(params: UrlSearchParams)
    modifies params
    ensures params.list == Foreign(old(params.list))
  {
    ghost var search := params.list;
    FilterAll(search, OtherThan([]));
    for i := 0 to |NAVIGATION_SEARCH_KEYS|
      invariant params.list == Filter(search, OtherThan(NAVIGATION_SEARCH_KEYS[..i]))
    {
      params.DeleteKey(NAVIGATION_SEARCH_KEYS[i]);
      DeleteStep(search, i);
    }
    assert NAVIGATION_SEARCH_KEYS[..|NAVIGATION_SEARCH_KEYS|] == NAVIGATION_SEARCH_KEYS;
  }

  lemma {:induction false} DeleteStep(search: seq<Param>, i: nat)
    requires i < |NAVIGATION_SEARCH_KEYS|
    ensures Delete(Filter(search, OtherThan(NAVIGATION_SEARCH_KEYS[..i])), NAVIGATION_SEARCH_KEYS[i])
         == Filter(search, OtherThan(NAVIGATION_SEARCH_KEYS[..i + 1]))
  {
    var p, q := OtherThan(NAVIGATION_SEARCH_KEYS[..i]), Without(NAVIGATION_SEARCH_KEYS[i]);
    assert NAVIGATION_SEARCH_KEYS[..i + 1] == NAVIGATION_SEARCH_KEYS[..i] + [NAVIGATION_SEARCH_KEYS[i]];
    FilterTwice(search, p, q);
    FilterCong(search, Both(p, q), OtherThan(NAVIGATION_SEARCH_KEYS[..i + 1]));
  }

  lemma {:induction false} ForeignKeys(search: seq<Param>)
    ensures AllOther(Foreign(search))
  {
    FilterMembers(search, OtherThan(NAVIGATION_SEARCH_KEYS));
    SearchKeys();
  }

  lemma {:induction false} PrintedEnds(search: seq<Param>, s: NavState)
    ensures PrintedUpTo(Foreign(search), s, 0) == Foreign(search)
    ensures PrintedUpTo(Foreign(search), s, 21) == Printed(search, s)
  {
    assert PRINT_ORDER[..21] == PRINT_ORDER;
  }

  method SearchFromNavigationState(search: seq<Param>, state: NavState) returns (next: seq<Param>)
    ensures next == Printed(search, state)
  {
    hide PrintedUpTo, Printed, AllOther, Foreign;
    var params := new UrlSearchParams(search);
    DeleteNavigationKeys(params);
    ghost var base := Foreign(search);
    ForeignKeys(search);
    PrintedEnds(search, state);
    PrintSelections(params, state, base);
    PrintWorkItem(params, state, base);
    PrintSettings(params, state, base);
    PrintPlanning(params, state, base);
    next := params.list;
  }
}
