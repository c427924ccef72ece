/** Shell navigation: which page is shown, whether the settings dialog is open, and the page to
    come back to (apps/web/src/hooks/use-page-navigation.ts, the page registry in
    apps/web/src/app/sections.ts and apps/web/src/features/settings/my-settings-model.ts). */
module PageNavigation {
  import opened Sequences
  import opened Navigation
  import opened StoreSetters

  datatype PageSurface = Entry | Settings | Trace

  predicate IsEntry(s: string) {
    || s in {"dashboard", "privateTutor", "mail", "localLibrary", "mySite", "myHosts", "task", "workflowMemory",
             "projects", "me"}
    || s in {"workBoard", "externalWork", "autoRuns", "approvals", "planning", "workspace", "documents",
             "workflowMemory", "canvas"}
  }

  predicate IsTrace(s: string) {
    s in {"compare", "evidence", "review", "evalTrend", "invocations", "audit"}
  }

  /** The registry's classification of a page. */
  function Surface(section: SectionKey): PageSurface {
    if IsEntry(section) then Entry else if IsTrace(section) then Trace else Settings
  }

  /** `settingsCategoryForSection` */
  function CategoryForSection(s: string): Option<SettingsCategory> {
    if s in {"devices", "agents", "agentSkills", "discovery", "tools"} then Some("execution")
    else if s in {"siteSettings", "applications", "integrations", "channels", "sessions"} then Some("connections")
    else if s in {"automation", "routines", "autoRuns"} then Some("automation")
    else if s in {"approvals", "audit"} then Some("governance")
    else if s in {"economics"} then Some("resources")
    else if s in {"invocations", "evidence", "review", "compare", "evalTrend"} then Some("diagnostics")
    else None
  }

  predicate IsMySettings(s: string) {
    CategoryForSection(s).Some?
  }

  // ------------------------------------------------------------- the transition as a function

  datatype Shell = Shell(
    section: SectionKey,
    surfaceReturnSection: Option<SectionKey>,
    taskArea: TaskArea,
    settingsDialogOpen: bool,
    settingsCategory: Option<SettingsCategory>,
    recent: seq<SectionKey>)

  /** Pages that are visited over another page rather than instead of it. */
  predicate OpensSettings(target: SectionKey) {
    target == "me" || target == "settings" || Surface(target) != Entry
  }

  function ReturnAfter(s: Shell, target: SectionKey): Option<SectionKey> {
    if s.settingsDialogOpen && IsMySettings(target) then s.surfaceReturnSection
    else if !s.settingsDialogOpen && Surface(s.section) == Entry
            && (OpensSettings(target) || (s.section == "task" && target == "autoRuns")) then Some(s.section)
    else if !OpensSettings(target) then None
    else s.surfaceReturnSection
  }

  function Navigated(s: Shell, target: SectionKey): Shell {
    var inDialog := s.settingsDialogOpen && IsMySettings(target);
    Shell(
      target,
      ReturnAfter(s, target),
      if !inDialog && target == "task" && s.section != "task" then "overview" else s.taskArea,
      inDialog || OpensSettings(target),
      if inDialog then CategoryForSection(target)
      else if target == "settings" && s.section != "settings" then None else s.settingsCategory,
      if IsMySettings(target) then RecordRecent(s.recent, target) else s.recent)
  }

  /** The return action of the context bar, offered only when there is another page to return to. */
  function Returned(s: Shell): Shell {
    if s.surfaceReturnSection.Some? && s.surfaceReturnSection.value != s.section
    then Navigated(s, s.surfaceReturnSection.value).(surfaceReturnSection := None)
    else s
  }

  // ------------------------------------------------------------- the transition as code

  class ShellStore {
    var section: SectionKey
    var surfaceReturnSection: Option<SectionKey>
    var taskArea: TaskArea
    var settingsDialogOpen: bool
    var settingsCategory: Option<SettingsCategory>
    var recent: seq<SectionKey>

    function Snapshot(): Shell
      reads this
    {
      Shell(section, surfaceReturnSection, taskArea, settingsDialogOpen, settingsCategory, recent)
    }

    constructor ()
      ensures Snapshot() == Shell("dashboard", None, "overview", false, None, [])
    {
      section, surfaceReturnSection, taskArea := "dashboard", None, "overview";
      settingsDialogOpen, settingsCategory, recent := false, None, [];
    }

    method Navigate(target: SectionKey)
      modifies this
      ensures Snapshot() == Navigated(old(Snapshot()), target)
    {
      hide IsSection, IsEntry, IsTrace, CategoryForSection, IsSettingsCategory, RecordRecent;
      var source := section;
      var opensTaskRunSetup := source == "task" && target == "autoRuns";
      var opensSettings := target == "me" || target == "settings" || Surface(target) != Entry;
      if settingsDialogOpen && IsMySettings(target) {
        settingsCategory := CategoryForSection(target);
        recent := RecordRecent(recent, target);
        section := target;
        return;
      }
      if !settingsDialogOpen && Surface(source) == Entry && (opensSettings || opensTaskRunSetup) {
        surfaceReturnSection := Some(source);
      } else if Surface(target) == Entry && !opensSettings {
        surfaceReturnSection := None;
      }
      settingsDialogOpen := opensSettings;
      if target == "settings" && source != "settings" {
        settingsCategory := None;
      }
      if target == "task" && source != "task" {
        taskArea := "overview";
      }
      if IsMySettings(target) {
        recent := RecordRecent(recent, target);
      }
      section := target;
    }

    method Return()
      modifies this
      ensures Snapshot() == Returned(old(Snapshot()))
    {
      if surfaceReturnSection.Some? && surfaceReturnSection.value != section {
        Navigate(surfaceReturnSection.value);
        surfaceReturnSection := None;
      }
    }
  }

  // ------------------------------------------------------------- every run

  datatype Move = Navigate(target: SectionKey) | Return | SetSection(section: SectionKey) | SetDialog(open: bool)

  /** A move of the shell; the last two stand for changes that come from elsewhere, such as a
      popstate. */
  function Moved(s: Shell, m: Move): Shell {
    match m
    case Navigate(target) => Navigated(s, target)
    case Return => Returned(s)
    case SetSection(section) => s.(section := section)
    case SetDialog(open) => s.(settingsDialogOpen := open)
  }

  function Run(s: Shell, moves: seq<Move>): Shell
    decreases |moves|
  {
    if moves == [] then s else Run(Moved(s, moves[0]), moves[1..])
  }

  predicate ReturnsToEntry(s: Shell) {
    s.surfaceReturnSection.Some? ==> Surface(s.surfaceReturnSection.value) == Entry
  }

  /** In every run the stored return page is absent or an entry page. */
  lemma {:induction false} ReturnIsEntry(s: Shell, moves: seq<Move>)
    requires ReturnsToEntry(s)
    ensures ReturnsToEntry(Run(s, moves))
    decreases |moves|
  {
    hide IsSection, IsEntry, IsTrace, CategoryForSection, RecordRecent;
    if moves != [] {
      ReturnIsEntry(Moved(s, moves[0]), moves[1..]);
    }
  }

  // ------------------------------------------------------------- the return trip

  function Visits(targets: seq<SectionKey>): seq<Move> {
    seq(|targets|, i requires 0 <= i < |targets| => Navigate(targets[i]))
  }

  /** While only overlay pages are visited from an open dialog, the return page stays. */
  lemma {:induction false} OverlaysKeepReturn(s: Shell, targets: seq<SectionKey>)
    requires s.settingsDialogOpen && forall t :: t in targets ==> OpensSettings(t)
    ensures var r := Run(s, Visits(targets));
            && r.settingsDialogOpen && r.surfaceReturnSection == s.surfaceReturnSection && r.taskArea == s.taskArea
            && r.section == if targets == [] then s.section else targets[|targets| - 1]
    decreases |targets|
  {
    hide IsSection, IsEntry, IsTrace, CategoryForSection, RecordRecent;
    if targets != [] {
      assert Visits(targets)[1..] == Visits(targets[1..]);
      OverlayStep(s, targets[0]);
      OverlaysKeepReturn(Navigated(s, targets[0]), targets[1..]);
    }
  }

  lemma {:induction false} OverlayStep(s: Shell, target: SectionKey)
    requires s.settingsDialogOpen && OpensSettings(target)
    ensures Navigated(s, target).settingsDialogOpen
             && Navigated(s, target).surfaceReturnSection == s.surfaceReturnSection
    ensures Navigated(s, target).taskArea == s.taskArea
  {
    TaskIsEntry();
    hide IsSection, IsEntry, IsTrace, CategoryForSection, RecordRecent;
  }

  lemma {:induction false} TaskIsEntry()
    ensures IsSection("task") && Surface("task") == Entry && !OpensSettings("task")
  {
  }

  /** Main result: from an entry page with the dialog closed, any visits to overlay pages followed
      by the return action lead back to the page with the dialog closed if and only if the page is
      neither `me` nor part of the settings model. The task area survives unless the page is
      `task`, which always comes back on its overview. */
  lemma {:induction false} ReturnTrip(s: Shell, targets: seq<SectionKey>)
    requires Surface(s.section) == Entry && !s.settingsDialogOpen
    requires targets != [] && forall t :: t in targets ==> OpensSettings(t)
    ensures var r := Returned(Run(s, Visits(targets)));
            && ((r.section == s.section && !r.settingsDialogOpen && r.surfaceReturnSection == None)
                <==> s.section != "me" && !IsMySettings(s.section))
            && (s.section != "me" && !IsMySettings(s.section)
              ==> r.taskArea == if s.section == "task" then "overview" else s.taskArea)
  {
    hide IsSection, IsEntry, IsTrace, CategoryForSection, RecordRecent;
    var first := Navigated(s, targets[0]);
    assert Visits(targets)[1..] == Visits(targets[1..]);
    assert Visits(targets)[0] == Navigate(targets[0]);
    FirstOverlay(s, targets[0]);
    OverlaysKeepReturn(first, targets[1..]);
    var open := Run(s, Visits(targets));
    assert open == Run(first, Visits(targets[1..]));
    var last := targets[|targets| - 1];
    assert open.section == last by {
      if |targets| > 1 {
        assert targets[1..][|targets| - 2] == last;
      }
    }
    BackFromOverlay(open, s.section);
  }

  lemma {:induction false} FirstOverlay(s: Shell, target: SectionKey)
    requires Surface(s.section) == Entry && !s.settingsDialogOpen && OpensSettings(target)
    ensures var r := Navigated(s, target);
            r.settingsDialogOpen && r.surfaceReturnSection == Some(s.section) && r.taskArea == s.taskArea
                && r.section == target
  {
    TaskIsEntry();
    hide IsSection, IsEntry, IsTrace, CategoryForSection, RecordRecent;
  }

  lemma {:induction false} BackFromOverlay(open: Shell, page: SectionKey)
    requires open.settingsDialogOpen && OpensSettings(open.section)
    requires open.surfaceReturnSection == Some(page) && Surface(page) == Entry
    ensures var r := Returned(open);
            && ((r.section == page && !r.settingsDialogOpen && r.surfaceReturnSection == None)
              <==> page != "me" && !IsMySettings(page))
            && (page != "me" && !IsMySettings(page)
              ==> r.taskArea == if page == "task" then "overview" else open.taskArea)
  {
    SettingsIsNotEntry();
    hide IsSection, IsEntry, IsTrace, CategoryForSection, RecordRecent;
  }

  lemma {:induction false} SettingsIsNotEntry()
    ensures IsSection("settings") && Surface("settings") != Entry
  {
  }

  // ------------------------------------------------------------- the page tables

  const TRACE_PAGES: seq<string> := ["compare", "evidence", "review", "evalTrend", "invocations", "audit"]

  const SETTINGS_PAGES: seq<string> :=
    ["settings", "siteSettings", "agents", "agentSkills", "devices", "discovery", "integrations", "tools",
        "applications",
     "channels", "sessions", "automation", "routines", "economics"]

  const ENTRY_PAGES: seq<string> :=
    ["dashboard", "privateTutor", "mail", "localLibrary", "mySite", "me", "workBoard", "planning", "workspace",
     "documents", "workflowMemory", "canvas", "autoRuns", "task", "externalWork", "approvals", "myHosts", "projects"]

  /** Every page of the console is on exactly one surface: six trace pages, fourteen settings pages and
      eighteen entry pages, and there is no other section. */
  lemma {:induction false} PageTables(s: string)
    ensures IsSection(s) <==> s in TRACE_PAGES || s in SETTINGS_PAGES || s in ENTRY_PAGES
    ensures s in TRACE_PAGES ==> IsSection(s) && Surface(s) == Trace
    ensures s in SETTINGS_PAGES ==> IsSection(s) && Surface(s) == Settings
    ensures s in ENTRY_PAGES ==> IsSection(s) && Surface(s) == Entry
  {
    TraceTable(s);
    SettingsTable(s);
    EntryTable(s);
    SectionTable(s);
    hide TRACE_PAGES, SETTINGS_PAGES, ENTRY_PAGES, IsSection, IsEntry, IsTrace;
  }

  lemma {:induction false} TraceTable(s: string)
    ensures s in TRACE_PAGES <==> IsTrace(s)
    ensures IsTrace(s) ==> IsSection(s) && !IsEntry(s)
  {
  }

  lemma {:induction false} SettingsTable(s: string)
    ensures s in SETTINGS_PAGES ==> IsSection(s) && !IsEntry(s) && !IsTrace(s)
  {
  }

  lemma {:induction false} EntryTable(s: string)
    ensures s in ENTRY_PAGES <==> IsEntry(s)
    ensures IsEntry(s) ==> IsSection(s)
  {
  }

  lemma {:induction false} SectionTable(s: string)
    ensures IsSection(s) ==> IsTrace(s) || IsEntry(s) || s in SETTINGS_PAGES
  {
  }

  /** The settings model: the pages of its six categories. */
  lemma {:induction false} SettingsModel(s: string)
    ensures CategoryForSection(s)
         == if s in ["devices", "agents", "agentSkills", "discovery", "tools"] then Some("execution")
            else if s in ["siteSettings", "applications", "integrations", "channels", "sessions"]
                then Some("connections")
            else if s in ["automation", "routines", "autoRuns"] then Some("automation")
            else if s in ["approvals", "audit"] then Some("governance")
            else if s in ["economics"] then Some("resources")
            else if s in ["invocations", "evidence", "review", "compare", "evalTrend"] then Some("diagnostics")
            else None
  {
    assert forall x :: x in ["economics"] <==> x == "economics";
    assert forall x :: x in ["approvals", "audit"] <==> x == "approvals" || x == "audit";
  }

  // ------------------------------------------------------------- what else a navigation does

  /** The pages of the settings model among the visited ones. */
  function ModelPages(targets: seq<SectionKey>): seq<SectionKey> {
    if targets == [] then []
    else
      var last := targets[|targets| - 1];
      ModelPages(targets[..|targets| - 1]) + (if CategoryForSection(last).Some? then [last] else [])
  }

  function NavigateAll(s: Shell, targets: seq<SectionKey>): Shell {
    if targets == [] then s else Navigated(NavigateAll(s, targets[..|targets| - 1]), targets[|targets| - 1])
  }

  /** Main result on recent pages: after any navigations from a fresh store the recent list is that of
      the visited pages of the settings model, whichever way they were opened. */
  lemma {:induction false} RecentOfNavigations(s: Shell, targets: seq<SectionKey>)
    requires s.recent == []
    ensures NavigateAll(s, targets).recent == RecentAfter(ModelPages(targets))
  {
    hide IsSection, IsEntry, IsTrace, CategoryForSection, RecordRecent, Surface;
    if targets != [] {
      var front, last := targets[..|targets| - 1], targets[|targets| - 1];
      RecentOfNavigations(s, front);
      if CategoryForSection(last).Some? {
        assert (ModelPages(front) + [last])[..|ModelPages(front)|] == ModelPages(front);
      } else {
        assert ModelPages(targets) == ModelPages(front);
      }
    }
  }

  /** Main result on the category: in the open dialog it follows the page of the model that is visited;
      entering `settings` from elsewhere clears it; every other navigation leaves it. */
  lemma {:induction false} CategoryFollows(s: Shell, target: SectionKey)
    ensures var r := Navigated(s, target);
            && (s.settingsDialogOpen && CategoryForSection(target).Some? ==>
                r.settingsCategory == CategoryForSection(target) && r.settingsDialogOpen)
            && (target == "settings" && s.section != "settings" ==> r.settingsCategory == None)
            && (target != "settings" && (CategoryForSection(target).None? || !s.settingsDialogOpen) ==>
                r.settingsCategory == s.settingsCategory)
            && (target == "settings" && s.section == "settings" ==> r.settingsCategory == s.settingsCategory)
  {
    assert CategoryForSection("settings") == None;
    hide IsSection, IsEntry, IsTrace, CategoryForSection, RecordRecent, Surface;
  }

  /** Ordinary navigation: an entry page other than `me`, opened outside the dialog, closes it, drops
      the return page, and shows a task on its overview when it comes from another page. The one
      exception keeps the way back from the run set-up to the task. */
  lemma {:induction false} OrdinaryNavigation(s: Shell, target: SectionKey)
    requires target in ENTRY_PAGES && target != "me" && !(s.settingsDialogOpen && CategoryForSection(target).Some?)
    ensures var r := Navigated(s, target);
            && r.section == target && !r.settingsDialogOpen
            && r.surfaceReturnSection
               == (if s.section == "task" && target == "autoRuns" && !s.settingsDialogOpen then Some("task") else None)
            && r.taskArea == (if target == "task" && s.section != "task" then "overview" else s.taskArea)
  {
    PageTables(target);
    PageTables("task");
    TaskListed();
    hide IsSection, IsEntry, IsTrace, CategoryForSection, RecordRecent, ENTRY_PAGES;
  }

  lemma {:induction false} TaskListed()
    ensures "task" in ENTRY_PAGES && "settings" in SETTINGS_PAGES && "me" in ENTRY_PAGES
  {
    assert ENTRY_PAGES[13] == "task" && ENTRY_PAGES[5] == "me" && SETTINGS_PAGES[0] == "settings";
  }

  /** The trip from a task to its run set-up and back ends on the task with no return page left. */
  lemma {:induction false} RunSetupTrip(s: Shell)
    requires s.section == "task" && !s.settingsDialogOpen
    ensures var setup := Navigated(s, "autoRuns");
            && setup.section == "autoRuns" && setup.surfaceReturnSection == Some("task")
            && Returned(setup).section == "task" && Returned(setup).surfaceReturnSection == None
            && !Returned(setup).settingsDialogOpen && Returned(setup).taskArea == "overview"
  {
    TaskListed();
    assert ENTRY_PAGES[12] == "autoRuns";
    OrdinaryNavigation(s, "autoRuns");
    assert CategoryForSection("task") == None;
    OrdinaryNavigation(Navigated(s, "autoRuns"), "task");
    hide IsSection, IsEntry, IsTrace, CategoryForSection, RecordRecent, ENTRY_PAGES, Navigated;
  }
}
