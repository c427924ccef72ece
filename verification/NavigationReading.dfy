/** What any location says, and what any state prints, key by key
    (apps/web/src/store/ui-store.ts:268-439). */
module NavigationReading {
  import opened Sequences
  import opened UrlParams
  import opened Navigation
  import opened NavigationLaws

  // ------------------------------------------------------------- reading a value

  /** The text that a raw value carries: nothing if it is missing or blank, otherwise what stands
      between its blanks. */
  ghost predicate Reads(raw: Option<string>, text: Option<string>) {
    if text.None? then raw.None? || Blank(raw.value)
    else
      && raw.Some? && text.value != "" && !IsSpace(text.value[0]) && !IsSpace(text.value[|text.value| - 1])
      && exists a, b :: Blank(a) && Blank(b) && raw.value == a + text.value + b
  }

  lemma {:induction false} TrimmedReads(raw: Option<string>)
    ensures Reads(raw, TrimmedValue(raw))
  {
    hide IsSpace;
    if raw.Some? {
      var a, b := TrimCuts(raw.value);
      TrimLaws(raw.value);
      if Trim(raw.value) == "" {
        assert raw.value == a + b;
      }
    }
  }

  lemma {:induction false} ReadsOnce(raw: Option<string>, text: Option<string>)
    requires Reads(raw, text)
    ensures text == TrimmedValue(raw)
  {
    hide IsSpace, Trim;
    if text.None? {
      if raw.Some? {
        TrimBlank(raw.value);
      }
    } else {
      var a, b :| Blank(a) && Blank(b) && raw.value == a + text.value + b;
      TrimAround(a, text.value, b);
    }
  }

  /** A raw value carries one text. */
  lemma {:induction false} ReadsUnique(raw: Option<string>, text: Option<string>, other: Option<string>)
    requires Reads(raw, text) && Reads(raw, other)
    ensures text == other
  {
    ReadsOnce(raw, text);
    ReadsOnce(raw, other);
  }

  // ------------------------------------------------------------- every location

  /** Some navigation key is present. */
  ghost predicate Speaks(params: seq<Param>) {
    exists k: Key :: !k.Other? && Has(params, k)
  }

  lemma {:induction false} SpeaksIs(params: seq<Param>)
    ensures Speaks(params) <==> HasAny(params, NAVIGATION_SEARCH_KEYS)
  {
    hide NAVIGATION_SEARCH_KEYS, Has;
    SearchKeys();
  }

  /** A location without navigation keys says nothing. */
  lemma {:induction false} SilentLocation(params: seq<Param>)
    requires !Speaks(params)
    ensures Parsed(params) == Patch(None, None, None, None, None, None, None, None, None, None, None, None, None, None,
                                    None, None, None)
  {
    SpeaksIs(params);
  }

  /** Main result on ids: on every location with some navigation key, valid section or not, each
      selected id is the text of its own key. */
  lemma {:induction false} ParsedIds(params: seq<Param>)
    requires Speaks(params)
    ensures var p := Parsed(params);
            && p.selectedInvocationId.Some? && Reads(Get(params, Invocation), p.selectedInvocationId.value)
            && p.selectedApplicationId.Some? && Reads(Get(params, Application), p.selectedApplicationId.value)
            && p.selectedEvidenceId.Some? && Reads(Get(params, Evidence), p.selectedEvidenceId.value)
            && p.selectedAutomationId.Some? && Reads(Get(params, Automation), p.selectedAutomationId.value)
            && p.selectedWorkItemId.Some? && Reads(Get(params, Task), p.selectedWorkItemId.value)
  {
    hide Reads, Get, TrimmedValue, IsSection;
    hide MentionsPlanning, MentionsSettings, MentionsExternalTab, SectionParam, RunParam, FiltersParam;
    SpeaksIs(params);
    TrimmedReads(Get(params, Invocation));
    TrimmedReads(Get(params, Application));
    TrimmedReads(Get(params, Evidence));
    TrimmedReads(Get(params, Automation));
    TrimmedReads(Get(params, Task));
  }

  /** Main result on the run: it is selected exactly when all three of its keys carry a text, and is
      cleared otherwise. */
  lemma {:induction false} ParsedRun(params: seq<Param>, application: Option<string>, routine: Option<string>,
                                     run: Option<string>)
    requires Speaks(params) && Reads(Get(params, Application), application)
    requires Reads(Get(params, Routine), routine) && Reads(Get(params, Run), run)
    ensures Parsed(params).selectedApplicationRun
         == Some(if application.Some? && routine.Some? && run.Some?
                 then Some(ApplicationRun(application.value, routine.value, run.value)) else None)
  {
    hide Reads, Get, TrimmedValue, IsSection;
    hide MentionsPlanning, MentionsSettings, MentionsExternalTab, SectionParam, FiltersParam;
    SpeaksIs(params);
    ReadsOnce(Get(params, Application), application);
    ReadsOnce(Get(params, Routine), routine);
    ReadsOnce(Get(params, Run), run);
  }

  /** A word of a closed list, or the default. */
  function Word(text: Option<string>, words: seq<string>, default: string): string {
    if text.Some? && text.value in words then text.value else default
  }

  /** Main result on the section: it is taken if it is one of the pages and ignored otherwise. */
  lemma {:induction false} ParsedSection(params: seq<Param>, section: Option<string>)
    requires Speaks(params) && Reads(Get(params, Section), section)
    ensures Parsed(params).section.Some? <==> section.Some? && IsSection(section.value)
    ensures Parsed(params).section.Some? ==> Some(Parsed(params).section.value) == section
  {
    hide Reads, Get, TrimmedValue, IsSection, RunParam, FiltersParam;
    hide MentionsPlanning, MentionsSettings, MentionsExternalTab, HasAny;
    SpeaksIs(params);
    ReadsOnce(Get(params, Section), section);
  }

  /** Main result on the words of a task: each field is given, with a word of its list or the
      default. */
  lemma {:induction false} ParsedTask(params: seq<Param>, mode: Option<string>, view: Option<string>,
                                      area: Option<string>)
    requires Speaks(params) && Reads(Get(params, TaskMode), mode)
    requires Reads(Get(params, TaskView), view) && Reads(Get(params, TaskAreaKey), area)
    ensures var p := Parsed(params);
            && Gives(p.selectedWorkItemMode, Word(mode, ["expert"], "summary"))
            && Gives(p.selectedWorkItemSection,
                     Word(view, ["process", "assets", "verification", "report", "trace"], "overview"))
            && Gives(p.taskArea, Word(area, ["process", "assets", "verification", "trace"], "overview"))
  {
    hide Reads, Get, TrimmedValue, IsSection, RunParam, FiltersParam;
    hide MentionsPlanning, MentionsSettings, MentionsExternalTab, HasAny, Speaks;
    SpeaksIs(params);
    ReadsOnce(Get(params, TaskMode), mode);
    ReadsOnce(Get(params, TaskView), view);
    ReadsOnce(Get(params, TaskAreaKey), area);
    var p := Parsed(params);
    assert p.selectedWorkItemMode == Some(ModeOf(mode));
    assert p.selectedWorkItemSection == Some(WorkItemSectionOf(view));
    assert p.taskArea == Some(TaskAreaOf(area));
    hide Parsed;
    TaskWords(mode, view, area);
    hide ModeOf, WorkItemSectionOf, TaskAreaOf, Word;
  }

  predicate Gives(given: Option<string>, word: string) {
    given == Some(word)
  }

  lemma {:induction false} TaskWords(mode: Option<string>, view: Option<string>, area: Option<string>)
    ensures ModeOf(mode) == Word(mode, ["expert"], "summary")
    ensures WorkItemSectionOf(view)
         == Word(view, ["process", "assets", "verification", "report", "trace"], "overview")
    ensures TaskAreaOf(area) == Word(area, ["process", "assets", "verification", "trace"], "overview")
  {
  }

  /** Main result on groups: exactly when a location gives the external tab, the settings and the
      planning fields, each of which one key alone can ask for. */
  lemma {:induction false} ParsedGroups(params: seq<Param>, section: Option<string>)
    requires Reads(Get(params, Section), section)
    ensures var p := Parsed(params);
            && (p.selectedExternalWorkTab.Some? <==> section == Some("externalWork") || Has(params, ExternalTab))
            && (p.settingsDialogOpen.Some? <==>
                || section == Some("me") || section == Some("settings") || Get(params, SettingsOpen) == Some("true")
                || Has(params, SettingsCategory) || Has(params, SettingsQuery))
            && (p.planningProjectFilters.Some? <==>
                || section == Some("planning") || Has(params, PlanningProject) || Has(params, PlanningView)
                || Has(params, PlanningStatus) || Has(params, PlanningPriority) || Has(params, PlanningMilestone)
                || Has(params, PlanningDue))
            && (p.settingsDialogOpen.Some? ==> p.settingsDialogOpen == Some(true))
            && (p.settingsDialogOpen.Some? <==> p.settingsCategory.Some?)
            && (p.settingsDialogOpen.Some? <==> p.settingsQuery.Some?)
            && (p.planningProjectFilters.Some? <==> p.selectedPlanningProjectId.Some?)
            && (p.planningProjectFilters.Some? <==> p.planningProjectView.Some?)
  {
    SpeaksIs(params);
    ReadsOnce(Get(params, Section), section);
    PlanningIs(params);
    SectionSpeaks(params, section);
    GroupsAre(params, section);
    hide Reads, Get, Has, TrimmedValue, IsSection, RunParam, FiltersParam, NAVIGATION_SEARCH_KEYS, PLANNING_KEYS;
    hide MentionsPlanning, MentionsSettings, MentionsExternalTab, HasAny, SectionParam, StringParam;
  }

  lemma {:induction false} PlanningIs(params: seq<Param>)
    ensures HasAny(params, PLANNING_KEYS)
       <==> (|| Has(params, PlanningProject) || Has(params, PlanningView) || Has(params, PlanningStatus)
             || Has(params, PlanningPriority) || Has(params, PlanningMilestone) || Has(params, PlanningDue))
  {
    hide Has;
    assert PLANNING_KEYS
        == [PlanningProject, PlanningView, PlanningStatus, PlanningPriority, PlanningMilestone, PlanningDue];
    assert PlanningProject in PLANNING_KEYS && PlanningView in PLANNING_KEYS && PlanningStatus in PLANNING_KEYS;
    assert PlanningPriority in PLANNING_KEYS && PlanningMilestone in PLANNING_KEYS && PlanningDue in PLANNING_KEYS;
  }

  lemma {:induction false} SectionSpeaks(params: seq<Param>, section: Option<string>)
    requires Reads(Get(params, Section), section)
    ensures section.Some? ==> Speaks(params)
  {
    if section.Some? {
      assert !Section.Other? && Has(params, Section);
    }
  }

  lemma {:induction false} GroupsAre(params: seq<Param>, section: Option<string>)
    requires Reads(Get(params, Section), section)
    ensures MentionsExternalTab(params) <==> section == Some("externalWork") || Has(params, ExternalTab)
    ensures MentionsSettings(params)
       <==> (|| section == Some("me") || section == Some("settings") || Get(params, SettingsOpen) == Some("true")
             || Has(params, SettingsCategory) || Has(params, SettingsQuery))
    ensures MentionsPlanning(params) <==> section == Some("planning") || HasAny(params, PLANNING_KEYS)
    ensures Has(params, ExternalTab) || Has(params, SettingsCategory) || Has(params, SettingsQuery) ==> Speaks(params)
    ensures Get(params, SettingsOpen) == Some("true") || HasAny(params, PLANNING_KEYS) ==> Speaks(params)
  {
    ReadsOnce(Get(params, Section), section);
    PlanningIs(params);
    if Get(params, SettingsOpen).Some? {
      assert !SettingsOpen.Other? && Has(params, SettingsOpen);
    }
    hide Get, TrimmedValue, Reads;
  }

  lemma {:induction false} GroupWords(tab: Option<string>, category: Option<string>, view: Option<string>,
                                      due: Option<string>)
    ensures TabOf(tab) == Word(tab, ["pr"], "issue")
    ensures Gives(CategoryOf(category), Word(category, CATEGORIES, "")) <==> CategoryOf(category).Some?
    ensures CategoryOf(category).Some? <==> category.Some? && category.value in CATEGORIES
    ensures ViewOf(view) == Word(view, ["board", "roadmap", "insights", "executions"], "list")
    ensures DueOf(due) == Word(due, ["overdue", "upcoming", "unscheduled"], "all")
  {
  }

  const CATEGORIES: seq<string> :=
    ["execution", "connections", "automation", "governance", "resources", "diagnostics"]

  /** Main result on the values of the tab and settings groups: the words that each key may carry, and
      what stands for a missing or unknown one. */
  lemma {:induction false} ParsedSettings(params: seq<Param>, tab: Option<string>, category: Option<string>,
                                          query: Option<string>)
    requires Reads(Get(params, ExternalTab), tab) && Reads(Get(params, SettingsCategory), category)
    requires Reads(Get(params, SettingsQuery), query)
    ensures var p := Parsed(params);
            && (p.selectedExternalWorkTab.Some? ==> Gives(p.selectedExternalWorkTab, Word(tab, ["pr"], "issue")))
            && (p.settingsCategory.Some? ==>
                if category.Some? && category.value in CATEGORIES then Gives(p.settingsCategory.value, category.value)
                else p.settingsCategory.value.None?)
            && (p.settingsQuery.Some? ==> Gives(p.settingsQuery, if query.Some? then query.value else ""))
  {
    hide Reads, Get, TrimmedValue, IsSection, RunParam, FiltersParam, SectionParam;
    hide MentionsPlanning, MentionsSettings, MentionsExternalTab, HasAny;
    ReadsOnce(Get(params, ExternalTab), tab);
    ReadsOnce(Get(params, SettingsCategory), category);
    ReadsOnce(Get(params, SettingsQuery), query);
    GroupWords(tab, category, None, None);
    var p := Parsed(params);
    assert p.selectedExternalWorkTab.Some? ==> p.selectedExternalWorkTab == Some(TabOf(tab));
    assert p.settingsCategory.Some? ==> p.settingsCategory == Some(CategoryOf(category));
    hide Parsed, TabOf, CategoryOf;
  }

  /** Main result on planning: texts of their keys, `all` (for the milestone: nothing) for missing
      ones, a view of the list, and of the six due words only three. */
  lemma {:induction false} ParsedPlanning(params: seq<Param>, project: Option<string>, view: Option<string>,
                                          status: Option<string>, priority: Option<string>, milestone: Option<string>,
                                          due: Option<string>)
    requires Reads(Get(params, PlanningProject), project) && Reads(Get(params, PlanningView), view)
    requires Reads(Get(params, PlanningStatus), status) && Reads(Get(params, PlanningPriority), priority)
    requires Reads(Get(params, PlanningMilestone), milestone) && Reads(Get(params, PlanningDue), due)
    ensures var p := Parsed(params);
            p.planningProjectFilters.Some? ==>
              && p.selectedPlanningProjectId == Some(project)
              && Gives(p.planningProjectView, Word(view, ["board", "roadmap", "insights", "executions"], "list"))
              && p.planningProjectFilters.value.status == (if status.Some? then status.value else "all")
              && p.planningProjectFilters.value.priority == (if priority.Some? then priority.value else "all")
              && p.planningProjectFilters.value.milestone == (if milestone.Some? then milestone.value else "")
              && p.planningProjectFilters.value.due == Word(due, ["overdue", "upcoming", "unscheduled"], "all")
  {
    hide Reads, Get, TrimmedValue, IsSection, RunParam, SectionParam;
    hide MentionsPlanning, MentionsSettings, MentionsExternalTab, HasAny;
    ReadsOnce(Get(params, PlanningProject), project);
    ReadsOnce(Get(params, PlanningView), view);
    ReadsOnce(Get(params, PlanningStatus), status);
    ReadsOnce(Get(params, PlanningPriority), priority);
    ReadsOnce(Get(params, PlanningMilestone), milestone);
    ReadsOnce(Get(params, PlanningDue), due);
    GroupWords(None, None, view, due);
    hide DueOf, ViewOf, Word;
  }

  /** Locality: two locations that both speak and agree on a field's own keys give it the same
      value, whatever else they say. */
  lemma {:induction false} ParsedLocally(params: seq<Param>, other: seq<Param>)
    requires Speaks(params) && Speaks(other)
    ensures var p, q := Parsed(params), Parsed(other);
            && (Get(params, Section) == Get(other, Section) ==> p.section == q.section)
            && (Get(params, Invocation) == Get(other, Invocation) ==> p.selectedInvocationId == q.selectedInvocationId)
            && (Get(params, Application) == Get(other, Application) ==>
                p.selectedApplicationId == q.selectedApplicationId)
            && (Get(params, Evidence) == Get(other, Evidence) ==> p.selectedEvidenceId == q.selectedEvidenceId)
            && (Get(params, Automation) == Get(other, Automation) ==> p.selectedAutomationId == q.selectedAutomationId)
            && (Get(params, Task) == Get(other, Task) ==> p.selectedWorkItemId == q.selectedWorkItemId)
            && (Get(params, TaskMode) == Get(other, TaskMode) ==> p.selectedWorkItemMode == q.selectedWorkItemMode)
            && (Get(params, TaskView) == Get(other, TaskView) ==>
                p.selectedWorkItemSection == q.selectedWorkItemSection)
            && (Get(params, TaskAreaKey) == Get(other, TaskAreaKey) ==> p.taskArea == q.taskArea)
            && ((forall k :: k in {Application, Routine, Run} ==> Get(params, k) == Get(other, k)) ==>
                p.selectedApplicationRun == q.selectedApplicationRun)
  {
    hide Get, TrimmedValue, IsSection, FiltersParam, MentionsPlanning, MentionsSettings, MentionsExternalTab;
    SpeaksIs(params);
    SpeaksIs(other);
  }

  /** A location with a single id selects just that id. */
  lemma {:induction false} SingleId(v: string)
    requires v != "" && !IsSpace(v[0]) && !IsSpace(v[|v| - 1])
    ensures Parsed([Param(Invocation, v)]).selectedInvocationId == Some(Some(v))
    ensures Parsed([Param(Application, v)]).selectedApplicationId == Some(Some(v))
    ensures Parsed([Param(Evidence, v)]).selectedEvidenceId == Some(Some(v))
    ensures Parsed([Param(Automation, v)]).selectedAutomationId == Some(Some(v))
    ensures Parsed([Param(Task, v)]).selectedWorkItemId == Some(Some(v))
  {
    SingleReads(Invocation, v);
    SingleReads(Application, v);
    SingleReads(Evidence, v);
    SingleReads(Automation, v);
    SingleReads(Task, v);
    hide Parsed, Get, Reads, IsSpace, Speaks;
    ParsedIds([Param(Invocation, v)]);
    ParsedIds([Param(Application, v)]);
    ParsedIds([Param(Evidence, v)]);
    ParsedIds([Param(Automation, v)]);
    ParsedIds([Param(Task, v)]);
  }

  lemma {:induction false} SingleReads(k: Key, v: string)
    requires !k.Other? && v != "" && !IsSpace(v[0]) && !IsSpace(v[|v| - 1])
    ensures Speaks([Param(k, v)])
    ensures forall text :: Reads(Get([Param(k, v)], k), text) ==> text == Some(v)
  {
    hide IsSpace;
    assert Has([Param(k, v)], k);
    assert Blank("") && v == "" + v + "";
    assert Reads(Some(v), Some(v));
    forall text | Reads(Get([Param(k, v)], k), text) ensures text == Some(v) {
      ReadsUnique(Some(v), text, Some(v));
    }
  }

  // ------------------------------------------------------------- every print

  /** One pair, or none. */
  function One(k: Key, present: bool, value: string): seq<Param> {
    if present then [Param(k, value)] else []
  }

  function Text(v: Option<string>): string {
    if v.Some? then v.value else ""
  }

  /** A selected run's application, else the selected application. */
  function ShownApplication(s: NavState): string {
    match s.selectedApplicationRun
    case Some(run) => run.applicationId
    case None => Text(s.selectedApplicationId)
  }

  function SelectionPairs(s: NavState): seq<Param> {
    var run := s.selectedApplicationRun;
    [Param(Section, s.section)]
    + One(Invocation, Text(s.selectedInvocationId) != "", Text(s.selectedInvocationId))
    + One(Application, ShownApplication(s) != "", ShownApplication(s))
    + One(Routine, run.Some?, if run.Some? then run.value.routineId else "")
    + One(Run, run.Some?, if run.Some? then run.value.invocationId else "")
    + One(Evidence, Text(s.selectedEvidenceId) != "", Text(s.selectedEvidenceId))
    + One(Automation, Text(s.selectedAutomationId) != "", Text(s.selectedAutomationId))
  }

  function TaskPairs(s: NavState): seq<Param> {
    var task := Text(s.selectedWorkItemId);
    One(Task, task != "", task)
    + One(TaskMode, task != "" && s.selectedWorkItemMode == "expert", "expert")
    + One(TaskView, task != "" && s.selectedWorkItemSection != "overview", s.selectedWorkItemSection)
    + One(TaskAreaKey, s.section == "task" && s.taskArea != "overview", s.taskArea)
    + One(ExternalTab, s.section == "externalWork" && s.selectedExternalWorkTab == "pr", "pr")
  }

  function SettingsPairs(s: NavState): seq<Param> {
    var shown, query := s.settingsDialogOpen || s.section == "settings", Trim(s.settingsQuery);
    One(SettingsOpen, s.settingsDialogOpen && s.section != "me" && s.section != "settings", "true")
    + One(SettingsCategory, shown && s.settingsCategory.Some?, Text(s.settingsCategory))
    + One(SettingsQuery, shown && query != "", query)
  }

  function PlanningPairs(s: NavState): seq<Param> {
    var f := s.planningProjectFilters;
    if s.section != "planning" then []
    else
      One(PlanningProject, Text(s.selectedPlanningProjectId) != "", Text(s.selectedPlanningProjectId))
      + [Param(PlanningView, s.planningProjectView)]
      + One(PlanningStatus, f.status != "all", f.status) + One(PlanningPriority, f.priority != "all", f.priority)
      + One(PlanningMilestone, f.milestone != "", f.milestone) + One(PlanningDue, f.due != "all", f.due)
  }

  function Pair(k: Key, value: Key -> Option<string>): seq<Param> {
    if value(k).Some? then [Param(k, value(k).value)] else []
  }

  lemma {:induction false} CollectSnoc(front: seq<Key>, k: Key, value: Key -> Option<string>)
    ensures Collect(front + [k], value) == Collect(front, value) + Pair(k, value)
  {
    assert (front + [k])[..|front|] == front;
  }

  lemma {:induction false} NothingCollected(value: Key -> Option<string>)
    ensures Collect([], value) == []
  {
  }

  lemma {:induction false} CollectThree(a: Key, b: Key, c: Key, value: Key -> Option<string>)
    ensures Collect([a], value) == Pair(a, value) && Collect([a, b], value) == Pair(a, value) + Pair(b, value)
    ensures Collect([a, b, c], value) == Pair(a, value) + Pair(b, value) + Pair(c, value)
  {
    hide Pair, Collect;
    CollectSnoc([], a, value);
    CollectSnoc([a], b, value);
    CollectSnoc([a, b], c, value);
    NothingCollected(value);
    assert [] + [a] == [a] && [a] + [b] == [a, b] && [a, b] + [c] == [a, b, c];
  }

  lemma {:induction false} CollectConcat(a: seq<Key>, b: seq<Key>, value: Key -> Option<string>)
    ensures Collect(a + b, value) == Collect(a, value) + Collect(b, value)
  {
    if b == [] {
      assert a + b == a;
    } else {
      assert (a + b)[..|a + b| - 1] == a + b[..|b| - 1];
      CollectConcat(a, b[..|b| - 1], value);
    }
  }

  lemma {:induction false} CollectSelection(s: NavState)
    ensures Collect([Section, Invocation, Application, Routine, Run, Evidence, Automation], NavValue(s))
         == SelectionPairs(s)
  {
    var value := NavValue(s);
    SelectionSum(s);
    hide Collect, Pair, NavValueOf, SelectionPairs;
    CollectThree(Section, Invocation, Application, value);
    CollectThree(Routine, Run, Evidence, value);
    CollectConcat([Section, Invocation, Application], [Routine, Run, Evidence], value);
    assert [Section, Invocation, Application] + [Routine, Run, Evidence]
        == [Section, Invocation, Application, Routine, Run, Evidence];
    CollectThree(Automation, Automation, Automation, value);
    CollectConcat([Section, Invocation, Application, Routine, Run, Evidence], [Automation], value);
    assert [Section, Invocation, Application, Routine, Run, Evidence] + [Automation]
        == [Section, Invocation, Application, Routine, Run, Evidence, Automation];
  }

  lemma {:induction false} SelectionSum(s: NavState)
    ensures var value := NavValue(s);
            Pair(Section, value) + Pair(Invocation, value) + Pair(Application, value) + Pair(Routine, value)
            + Pair(Run, value) + Pair(Evidence, value) + Pair(Automation, value)
            == SelectionPairs(s)
  {
    hide IsSection;
    var value, run := NavValue(s), s.selectedApplicationRun;
    assert Pair(Section, value) == [Param(Section, s.section)];
    assert Pair(Invocation, value)
        == One(Invocation, Text(s.selectedInvocationId) != "", Text(s.selectedInvocationId));
    assert Pair(Application, value) == One(Application, ShownApplication(s) != "", ShownApplication(s));
    assert Pair(Routine, value) == One(Routine, run.Some?, if run.Some? then run.value.routineId else "");
    assert Pair(Run, value) == One(Run, run.Some?, if run.Some? then run.value.invocationId else "");
    assert Pair(Evidence, value) == One(Evidence, Text(s.selectedEvidenceId) != "", Text(s.selectedEvidenceId));
    assert Pair(Automation, value)
        == One(Automation, Text(s.selectedAutomationId) != "", Text(s.selectedAutomationId));
    hide Pair, NavValueOf, One, Text, ShownApplication;
  }

  lemma {:induction false} CollectTask(s: NavState)
    ensures Collect([Task, TaskMode, TaskView, TaskAreaKey, ExternalTab], NavValue(s)) == TaskPairs(s)
  {
    var value := NavValue(s);
    TaskSum(s);
    hide Collect, Pair, NavValueOf, TaskPairs;
    CollectThree(Task, TaskMode, TaskView, value);
    CollectThree(TaskAreaKey, ExternalTab, ExternalTab, value);
    CollectConcat([Task, TaskMode, TaskView], [TaskAreaKey, ExternalTab], value);
    assert [Task, TaskMode, TaskView] + [TaskAreaKey, ExternalTab]
        == [Task, TaskMode, TaskView, TaskAreaKey, ExternalTab];
  }

  lemma {:induction false} TaskSum(s: NavState)
    ensures var value := NavValue(s);
            Pair(Task, value) + Pair(TaskMode, value) + Pair(TaskView, value)
            + Pair(TaskAreaKey, value) + Pair(ExternalTab, value)
            == TaskPairs(s)
  {
    hide IsWorkItemMode, IsWorkItemSection, IsTaskArea, IsExternalTab, IsSection;
    var value, task := NavValue(s), Text(s.selectedWorkItemId);
    assert Pair(Task, value) == One(Task, task != "", task);
    assert Pair(TaskMode, value) == One(TaskMode, task != "" && s.selectedWorkItemMode == "expert", "expert");
    assert Pair(TaskView, value)
        == One(TaskView, task != "" && s.selectedWorkItemSection != "overview", s.selectedWorkItemSection);
    assert Pair(TaskAreaKey, value) == One(TaskAreaKey, s.section == "task" && s.taskArea != "overview", s.taskArea);
    assert Pair(ExternalTab, value)
        == One(ExternalTab, s.section == "externalWork" && s.selectedExternalWorkTab == "pr", "pr");
    hide Pair, NavValueOf, One, Text;
  }

  lemma {:induction false} CollectSettings(s: NavState)
    ensures Collect([SettingsOpen, SettingsCategory, SettingsQuery], NavValue(s)) == SettingsPairs(s)
  {
    var value := NavValue(s);
    SettingsSum(s);
    hide Collect, Pair, NavValueOf, SettingsPairs;
    CollectThree(SettingsOpen, SettingsCategory, SettingsQuery, value);
  }

  lemma {:induction false} SettingsSum(s: NavState)
    ensures var value := NavValue(s);
            Pair(SettingsOpen, value) + Pair(SettingsCategory, value) + Pair(SettingsQuery, value)
            == SettingsPairs(s)
  {
    hide IsSettingsCategory, IsSection, Trim;
  }

  lemma {:induction false} CollectPlanning(s: NavState)
    ensures Collect([PlanningProject, PlanningView, PlanningStatus, PlanningPriority, PlanningMilestone, PlanningDue],
                    NavValue(s))
         == PlanningPairs(s)
  {
    var value := NavValue(s);
    PlanningSum(s);
    hide Collect, Pair, NavValueOf, PlanningPairs;
    CollectThree(PlanningProject, PlanningView, PlanningStatus, value);
    CollectThree(PlanningPriority, PlanningMilestone, PlanningDue, value);
    var front := [PlanningProject, PlanningView, PlanningStatus];
    var back := [PlanningPriority, PlanningMilestone, PlanningDue];
    CollectConcat(front, back, value);
    assert front + back
        == [PlanningProject, PlanningView, PlanningStatus, PlanningPriority, PlanningMilestone, PlanningDue];
  }

  lemma {:induction false} PlanningSum(s: NavState)
    ensures var value := NavValue(s);
            Pair(PlanningProject, value) + Pair(PlanningView, value) + Pair(PlanningStatus, value)
            + Pair(PlanningPriority, value) + Pair(PlanningMilestone, value) + Pair(PlanningDue, value)
            == PlanningPairs(s)
  {
    hide IsPlanningView, IsDue, IsSection;
    var value, f, planning := NavValue(s), s.planningProjectFilters, s.section == "planning";
    var project := Text(s.selectedPlanningProjectId);
    assert Pair(PlanningProject, value) == One(PlanningProject, planning && project != "", project);
    assert Pair(PlanningView, value) == One(PlanningView, planning, s.planningProjectView);
    assert Pair(PlanningStatus, value) == One(PlanningStatus, planning && f.status != "all", f.status);
    assert Pair(PlanningPriority, value) == One(PlanningPriority, planning && f.priority != "all", f.priority);
    assert Pair(PlanningMilestone, value) == One(PlanningMilestone, planning && f.milestone != "", f.milestone);
    assert Pair(PlanningDue, value) == One(PlanningDue, planning && f.due != "all", f.due);
    hide Pair, NavValueOf;
  }

  function OtherKey(): Param -> bool {
    (p: Param) => p.key.Other?
  }

  /** Main result on printing: the parameters of other keys, in order, then the pairs of the state,
      group by group. */
  lemma {:induction false} PrintedPairs(search: seq<Param>, s: NavState)
    ensures Printed(search, s)
         == Filter(search, OtherKey()) + SelectionPairs(s) + TaskPairs(s) + SettingsPairs(s) + PlanningPairs(s)
  {
    hide Collect, Filter, SelectionPairs, TaskPairs, SettingsPairs, PlanningPairs, NavValueOf;
    ForeignIsOther(search);
    PrintGroups(NavValue(s));
    CollectSelection(s);
    CollectTask(s);
    CollectSettings(s);
    CollectPlanning(s);
  }

  lemma {:induction false} PrintGroups(value: Key -> Option<string>)
    ensures Collect(PRINT_ORDER, value)
         == Collect([Section, Invocation, Application, Routine, Run, Evidence, Automation], value)
            + Collect([Task, TaskMode, TaskView, TaskAreaKey, ExternalTab], value)
            + Collect([SettingsOpen, SettingsCategory, SettingsQuery], value)
            + Collect([PlanningProject, PlanningView, PlanningStatus, PlanningPriority, PlanningMilestone, PlanningDue],
                      value)
  {
    hide Collect;
    var a := [Section, Invocation, Application, Routine, Run, Evidence, Automation];
    var b := [Task, TaskMode, TaskView, TaskAreaKey, ExternalTab];
    var c := [SettingsOpen, SettingsCategory, SettingsQuery];
    var d := [PlanningProject, PlanningView, PlanningStatus, PlanningPriority, PlanningMilestone, PlanningDue];
    assert PRINT_ORDER == a + b + c + d;
    CollectConcat(a, b, value);
    CollectConcat(a + b, c, value);
    CollectConcat(a + b + c, d, value);
  }

  lemma {:induction false} ForeignIsOther(search: seq<Param>)
    ensures Foreign(search) == Filter(search, OtherKey())
  {
    hide NAVIGATION_SEARCH_KEYS;
    SearchKeys();
    FilterCong(search, OtherThan(NAVIGATION_SEARCH_KEYS), OtherKey());
  }
}
