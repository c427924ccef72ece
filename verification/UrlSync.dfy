/** The history machine that keeps the query string and the store in step
    (apps/web/src/app/url-navigation-sync.ts). Path and hash never change here, so a history entry
    is its search string: the pairs it parses to and a spelling, `0` for the one that serialising
    the pairs gives. */
module UrlSync {
  import opened Sequences
  import opened UrlParams
  import opened Navigation
  import opened NavigationLaws

  datatype Search = Search(pairs: seq<Param>, spelling: nat)

  // ------------------------------------------------------------- the machine as a function

  datatype Tab = Tab(entries: seq<Search>, index: nat, store: NavState)

  predicate ValidTab(t: Tab) {
    t.index < |t.entries|
  }

  function Current(t: Tab): Search
    requires ValidTab(t)
  {
    t.entries[t.index]
  }

  function Replaced(t: Tab, next: Search): Tab
    requires ValidTab(t)
  {
    t.(entries := t.entries[t.index := next])
  }

  function Pushed(t: Tab, next: Search): Tab
    requires ValidTab(t)
  {
    if next == Current(t) then t
    else t.(entries := t.entries[..t.index + 1] + [next], index := t.index + 1)
  }

  /** The store changes that deserve a history entry. */
  predicate Navigates(state: NavState, previous: NavState) {
    || state.section != previous.section
    || state.taskArea != previous.taskArea
    || state.settingsDialogOpen != previous.settingsDialogOpen
    || (Truthy(state.selectedWorkItemId) && !Truthy(previous.selectedWorkItemId))
  }

  datatype Event = StoreChange(next: NavState) | PopState(target: nat)

  function Step(t: Tab, e: Event): Tab
    requires ValidTab(t)
  {
    match e
    case StoreChange(next) =>
      var url := Search(Printed(Current(t).pairs, next), 0);
      var changed := t.(store := next);
      if Navigates(next, t.store) then Pushed(changed, url) else Replaced(changed, url)
    case PopState(target) =>
      if target < |t.entries| then
        t.(index := target, store := Applied(t.store, Parsed(t.entries[target].pairs)))
      else t
  }

  /** Mounting: the location is applied to the store and the store written back in place. */
  function Mounted(t: Tab): Tab
    requires ValidTab(t)
  {
    var store := Applied(t.store, Parsed(Current(t).pairs));
    Replaced(t.(store := store), Search(Printed(Current(t).pairs, store), 0))
  }

  // ------------------------------------------------------------- the machine as code

  class UrlNavigationSync {
    var entries: seq<Search>
    var index: nat
    const ui: UiState
    var applyingUrl: bool

    ghost predicate Valid()
      reads this
    {
      index < |entries| && !applyingUrl
    }

    function Abs(): Tab
      reads this, ui
    {
      Tab(entries, index, ui.Snapshot())
    }

    constructor (history: seq<Search>, at: nat, ui: UiState)
      requires at < |history|
      modifies ui
      ensures Valid() && this.ui == ui
      ensures Abs() == Mounted(Tab(history, at, old(ui.Snapshot())))
    {
      entries := history;
      index := at;
      this.ui := ui;
      applyingUrl := false;
      new;
      ApplyLocationToStore();
      var search := SearchFromNavigationState(entries[index].pairs, ui.Snapshot());
      ReplaceUrlSearch(search);
    }

    method ReplaceUrlSearch(search: seq<Param>)
      requires index < |entries|
      modifies `entries
      ensures Abs() == Replaced(old(Abs()), Search(search, 0))
    {
      var nextUrl := Search(search, 0);
      var currentUrl := entries[index];
      if nextUrl != currentUrl {
        entries := entries[index := nextUrl];
      } else {
        assert entries == entries[index := nextUrl];
      }
    }

    method PushUrlSearch(search: seq<Param>)
      requires index < |entries|
      modifies `entries, `index
      ensures Abs() == Pushed(old(Abs()), Search(search, 0))
    {
      var nextUrl := Search(search, 0);
      var currentUrl := entries[index];
      if nextUrl != currentUrl {
        entries := entries[..index + 1] + [nextUrl];
        index := index + 1;
      }
    }

    /** The store's subscriber; it ignores the changes that come from the location itself. */
    method OnStoreChange(state: NavState, previous: NavState)
      requires index < |entries|
      modifies `entries, `index
      ensures old(applyingUrl) ==> entries == old(entries) && index == old(index)
      ensures !old(applyingUrl) ==>
                var url := Search(Printed(old(entries)[old(index)].pairs, state), 0);
                Abs() == if Navigates(state, previous) then Pushed(old(Abs()), url) else Replaced(old(Abs()), url)
    {
      if applyingUrl {
        return;
      }
      var search := SearchFromNavigationState(entries[index].pairs, state);
      if state.section != previous.section
         || state.taskArea != previous.taskArea
         || state.settingsDialogOpen != previous.settingsDialogOpen
         || (Truthy(state.selectedWorkItemId) && !Truthy(previous.selectedWorkItemId)) {
        PushUrlSearch(search);
      } else {
        ReplaceUrlSearch(search);
      }
    }

    method ApplyLocationToStore()
      requires Valid()
      modifies this, ui
      ensures Valid() && entries == old(entries) && index == old(index)
      ensures ui.Snapshot() == Applied(old(ui.Snapshot()), Parsed(entries[index].pairs))
    {
      applyingUrl := true;
      var previous := ui.Snapshot();
      var patch := NavigationFromSearch(entries[index].pairs);
      ui.ApplyUrlNavigation(patch);
      OnStoreChange(ui.Snapshot(), previous);
      applyingUrl := false;
    }

    /** A change made through the store's setters, each of which merges a partial state. */
    method SetState(partial: Patch)
      requires Valid()
      modifies this, ui
      ensures Valid() && Abs() == Step(old(Abs()), StoreChange(Applied(old(ui.Snapshot()), partial)))
    {
      var previous := ui.Snapshot();
      ui.ApplyUrlNavigation(partial);
      OnStoreChange(ui.Snapshot(), previous);
    }

    /** The browser moves to another entry and fires `popstate`. */
    method Traverse(target: nat)
      requires Valid()
      modifies this, ui
      ensures Valid() && Abs() == Step(old(Abs()), PopState(target))
    {
      if target < |entries| {
        index := target;
        ApplyLocationToStore();
      }
    }
  }

  // ------------------------------------------------------------- one step

  /** Popstate never adds or rewrites an entry. */
  lemma {:induction false} PopStateKeepsHistory(t: Tab, target: nat)
    requires ValidTab(t)
    ensures Step(t, PopState(target)).entries == t.entries
  {
  }

  /** A store change rewrites the current entry or adds a different one after it; the entries
      before stay, and the new current entry is what printing the store over it gives. */
  lemma {:induction false} StoreChangeIsLocal(t: Tab, next: NavState)
    requires ValidTab(t)
    ensures var u := Step(t, StoreChange(next));
            && ValidTab(u) && u.store == next
            && Current(u) == Search(Printed(Current(u).pairs, next), 0)
            && Current(u).pairs == Printed(Current(t).pairs, next)
            && (|| (u.index == t.index && u.entries == t.entries[..t.index] + [Current(u)] + t.entries[t.index + 1..])
                || (u.index == t.index + 1 && u.entries == t.entries[..t.index + 1] + [Current(u)]
                  && Current(u) != Current(t)))
  {
    hide Printed, Applied, Parsed;
    PrintTwice(Current(t).pairs, next, next);
    var u := Step(t, StoreChange(next));
    if u.index == t.index {
      assert u.entries[t.index] == Current(u);
      assert t.entries[t.index := Current(u)] == t.entries[..t.index] + [Current(u)] + t.entries[t.index + 1..];
      assert u.entries == t.entries[t.index := Current(u)];
    }
  }

  /** A work item is selected after none was. */
  predicate SelectsItem(next: NavState, before: NavState) {
    && next.selectedWorkItemId.Some? && next.selectedWorkItemId.value != ""
    && (before.selectedWorkItemId.None? || before.selectedWorkItemId.value == "")
  }

  /** Main result on store changes: an entry is added exactly when the section, the task area or the
      dialog changes or a work item is newly selected, and the address changes with it; any other
      change keeps the length of the history and the place in it. */
  lemma {:induction false} PushesExactly(t: Tab, next: NavState)
    requires ValidTab(t)
    ensures var u, s := Step(t, StoreChange(next)), t.store;
            var added := (|| next.section != s.section || next.taskArea != s.taskArea
                          || next.settingsDialogOpen != s.settingsDialogOpen || SelectsItem(next, s))
                         && Search(Printed(Current(t).pairs, next), 0) != Current(t);
            && (added ==> u.index == t.index + 1 && |u.entries| == t.index + 2)
            && (!added ==> u.index == t.index && |u.entries| == |t.entries|)
  {
    hide Printed;
  }

  /** So from an address that shows the store these changes add an entry: of the section, of the task
      area of a task, of the dialog on a page that does not imply it, and a new work item. */
  lemma {:induction false} NavigatingChangesPush(t: Tab, next: NavState)
    requires InStep(t)
    requires || next.section != t.store.section
             || (next.section == "task" && next.taskArea != t.store.taskArea)
             || (next.section != "me" && next.section != "settings"
                 && next.settingsDialogOpen != t.store.settingsDialogOpen)
             || SelectsItem(next, t.store)
    ensures var u := Step(t, StoreChange(next));
            u.index == t.index + 1 && |u.entries| == t.index + 2 && u.entries[t.index] == Current(t)
  {
    hide Printed;
    var url, s := Current(t).pairs, t.store;
    PushesExactly(t, next);
    GetPrinted(url, s, Section);
    GetPrinted(url, next, Section);
    GetPrinted(url, s, TaskAreaKey);
    GetPrinted(url, next, TaskAreaKey);
    GetPrinted(url, s, SettingsOpen);
    GetPrinted(url, next, SettingsOpen);
    GetPrinted(url, s, Task);
    GetPrinted(url, next, Task);
    hide Get, IsSection, IsWorkItemMode, IsWorkItemSection, IsTaskArea, IsExternalTab, IsSettingsCategory,
        IsPlanningView;
    hide IsDue, Trim;
    assert Printed(url, next) != url;
  }

  /** And going back from a change of section, or of the work item, leads to the section, or takes the
      item away again. */
  lemma {:induction false} BackFromSection(t: Tab, next: NavState)
    requires InStep(t) && (next.section != t.store.section || SelectsItem(next, t.store))
    ensures var back := Step(Step(t, StoreChange(next)), PopState(t.index));
            back.index == t.index && back.store.section == t.store.section
            && (SelectsItem(next, t.store) ==> back.store.selectedWorkItemId == None)
  {
    hide Printed, Parsed;
    NavigatingChangesPush(t, next);
    ParsedPrinted(Current(t).pairs, t.store);
    hide IsSection, IsWorkItemMode, IsWorkItemSection, IsTaskArea, IsExternalTab, IsSettingsCategory, IsPlanningView;
    hide IsDue, Trim, RunTrip, FiltersTrip, Navigates;
    NothingSelected(t.store.selectedWorkItemId);
  }

  lemma {:induction false} NothingSelected(id: Option<string>)
    ensures id.None? || id.value == "" ==> IdTrip(id) == None
  {
    EmptyTrim();
  }

  /** Mounting again changes no history entry if and only if the location and the store settle at
      once; from any location the second mount is the last one that changes an entry. */
  lemma {:induction false} MountSettles(t: Tab)
    requires ValidTab(t)
    ensures Mounted(Mounted(t)).entries == Mounted(t).entries <==> SettlesAtOnce(Synced(Current(t).pairs, t.store))
    ensures Mounted(Mounted(Mounted(t))).entries == Mounted(Mounted(t)).entries
  {
    hide Printed, Parsed, Applied, SettlesAtOnce, Sync;
    MountIsSync(t);
    MountIsSync(Mounted(t));
    MountIsSync(Mounted(Mounted(t)));
    var x := Synced(Current(t).pairs, t.store);
    OneSyncSettles(x);
    SyncSettles(x);
  }

  lemma {:induction false} MountIsSync(t: Tab)
    requires ValidTab(t)
    ensures var m := Mounted(t);
            && ValidTab(m) && m.entries == t.entries[t.index := Current(m)] && m.index == t.index
            && Current(m).spelling == 0
            && Synced(Current(m).pairs, m.store) == Sync(Synced(Current(t).pairs, t.store))
  {
    hide Printed, Parsed, Applied;
  }

  // ------------------------------------------------------------- every run

  function Run(t: Tab, events: seq<Event>): (u: Tab)
    requires ValidTab(t)
    ensures ValidTab(u)
    decreases |events|
  {
    if events == [] then t else Run(Step(t, events[0]), events[1..])
  }

  ghost predicate OneForeign(t: Tab, foreign: seq<Param>) {
    forall i :: 0 <= i < |t.entries| ==> Foreign(t.entries[i].pairs) == foreign
  }

  lemma {:induction false} StepKeepsForeign(t: Tab, e: Event, foreign: seq<Param>)
    requires ValidTab(t) && OneForeign(t, foreign)
    ensures OneForeign(Step(t, e), foreign)
  {
    hide Printed, Applied, Parsed, Foreign;
    if e.StoreChange? {
      PrintKeepsForeign(Current(t).pairs, e.next);
    }
  }

  /** In every run the parameters that navigation does not own are the same in all entries. */
  lemma {:induction false} RunKeepsForeign(t: Tab, events: seq<Event>, foreign: seq<Param>)
    requires ValidTab(t) && OneForeign(t, foreign)
    ensures OneForeign(Run(t, events), foreign)
    decreases |events|
  {
    if events != [] {
      StepKeepsForeign(t, events[0], foreign);
      RunKeepsForeign(Step(t, events[0]), events[1..], foreign);
    }
  }

  lemma {:induction false} RunSplit(t: Tab, events: seq<Event>, last: Event)
    requires ValidTab(t)
    ensures Run(t, events + [last]) == Step(Run(t, events), last)
    decreases |events|
  {
    if events != [] {
      assert (events + [last])[1..] == events[1..] + [last];
      RunSplit(Step(t, events[0]), events[1..], last);
    }
  }

  /** After any run that ends in a store change, from a tab whose entries share their foreign
      parameters, the address shows exactly these and the store: no trace of the moves in between
      is left. */
  lemma {:induction false} AddressAfterRun(t: Tab, events: seq<Event>, next: NavState)
    requires ValidTab(t) && OneForeign(t, Foreign(Current(t).pairs))
    ensures var u := Run(t, events + [StoreChange(next)]);
            u.store == next && Current(u) == Search(Printed(Current(t).pairs, next), 0)
  {
    hide Printed, Applied, Parsed, Foreign, Step;
    var before := Run(t, events);
    RunSplit(t, events, StoreChange(next));
    RunKeepsForeign(t, events, Foreign(Current(t).pairs));
    StoreChangeIsLocal(before, next);
    SameForeignSamePrint(Current(before).pairs, Current(t).pairs, next);
  }

  lemma {:induction false} SameForeignSamePrint(a: seq<Param>, b: seq<Param>, s: NavState)
    requires Foreign(a) == Foreign(b)
    ensures Printed(a, s) == Printed(b, s)
  {
  }

  function StoreChanges(events: seq<Event>): nat {
    if events == [] then 0 else (if events[0].StoreChange? then 1 else 0) + StoreChanges(events[1..])
  }

  /** History grows by at most one entry per store change, and never by popstate. */
  lemma {:induction false} HistoryGrowth(t: Tab, events: seq<Event>)
    requires ValidTab(t)
    ensures |Run(t, events).entries| <= |t.entries| + StoreChanges(events)
    decreases |events|
  {
    hide Printed, Applied, Parsed;
    if events != [] {
      HistoryGrowth(Step(t, events[0]), events[1..]);
    }
  }

  // ------------------------------------------------------------- back and forward

  /** The address shows the store. */
  predicate InStep(t: Tab) {
    ValidTab(t) && Current(t) == Search(Printed(Current(t).pairs, t.store), 0)
  }

  /** Going back over a pushed entry restores the store that pushed it if and only if that store
      was canonical and the later one changed nothing that its address does not show. */
  lemma {:induction false} BackRestores(t: Tab, next: NavState)
    requires InStep(t) && Navigates(next, t.store)
    ensures var pushed := Step(t, StoreChange(next));
            pushed.index == t.index + 1 ==>
              (Step(pushed, PopState(t.index)).store == t.store
               <==> Canonical(t.store) && AgreeOnUnprinted(t.store, next))
  {
    hide Printed, Applied, Parsed, Canonical, AgreeOnUnprinted, Navigates;
    LocationRestores(Current(t).pairs, t.store, next);
    StoreChangeIsLocal(t, next);
    var pushed := Step(t, StoreChange(next));
    if pushed.index == t.index + 1 {
      assert pushed.entries[t.index] == t.entries[..t.index + 1][t.index] == Current(t);
    }
  }

  /** The entry was written from a store. */
  ghost predicate Written(e: Search) {
    exists search, s :: e == Search(Printed(search, s), 0)
  }

  ghost predicate AllWritten(t: Tab) {
    ValidTab(t) && forall i :: 0 <= i < |t.entries| ==> Written(t.entries[i])
  }

  lemma {:induction false} StepWrites(t: Tab, e: Event)
    requires AllWritten(t)
    ensures AllWritten(Step(t, e))
  {
    hide Written, Printed, Applied, Parsed, Navigates;
    var u := Step(t, e);
    if e.StoreChange? {
      IsWritten(Current(t).pairs, e.next);
      forall i | 0 <= i < |u.entries| ensures Written(u.entries[i]) {
        if i != u.index {
          assert u.entries[i] == t.entries[i];
        }
      }
    }
  }

  lemma {:induction false} IsWritten(search: seq<Param>, s: NavState)
    ensures Written(Search(Printed(search, s), 0))
  {
  }

  /** Every entry of every run is written from a store, once all entries of its start are; mounting
      writes the entry of a tab with a single one. */
  lemma {:induction false} RunWrites(t: Tab, events: seq<Event>)
    requires ValidTab(t)
    ensures |t.entries| == 1 ==> AllWritten(Mounted(t))
    ensures AllWritten(t) ==> AllWritten(Run(t, events))
    decreases |events|
  {
    hide Written, Printed, Applied, Parsed, Step;
    MountWrites(t);
    if events != [] && AllWritten(t) {
      StepWrites(t, events[0]);
      RunWrites(Step(t, events[0]), events[1..]);
    }
  }

  lemma {:induction false} MountWrites(t: Tab)
    requires ValidTab(t)
    ensures |t.entries| == 1 ==> AllWritten(Mounted(t))
  {
    hide Written, Printed, Applied, Parsed;
    var url := Current(t).pairs;
    IsWritten(url, Applied(t.store, Parsed(url)));
  }

  /** Whatever another store `t` holds, a location printed from `s` gives it a state that prints
      alike if and only if `s` is tidy and no dialog is left open that the location does not tell. */
  lemma {:induction false} SharedLocation(search: seq<Param>, s: NavState, t: NavState)
    ensures var url := Printed(search, s);
            Printed(url, Applied(t, Parsed(url))) == url <==> Tidy(s) && (PrintsSettings(s) || !t.settingsDialogOpen)
  {
    hide Printed, Parsed, Tidy, Applied, TripPatch, PrintsSettings, NavValueOf;
    var url := Printed(search, s);
    ParsedPrinted(search, s);
    var u := Applied(t, TripPatch(s));
    PrintTwice(search, s, u);
    OwnLocationSettled(search, s);
    PrintTwice(search, s, Trip(s));
    if !PrintsSettings(s) && t.settingsDialogOpen {
      DialogStays(t, s);
      SettingsOpenShows(search, s, u);
    } else {
      forall k: Key ensures NavValueOf(u, k) == NavValueOf(Trip(s), k) {
        SameTrip(s, t, k);
      }
      PrintedSame(search, u, Trip(s));
    }
  }

  lemma {:induction false} SameTrip(s: NavState, t: NavState, k: Key)
    requires PrintsSettings(s) || !t.settingsDialogOpen
    ensures NavValueOf(Applied(t, TripPatch(s)), k) == NavValueOf(Trip(s), k)
  {
    hide Trim, IsSection, IdTrip, RunTrip, FiltersTrip;
  }

  /** Main result: after a popstate to an entry written from `s`, the address shows the store if and
      only if `s` is tidy and no settings dialog is open that `s` does not show. */
  lemma {:induction false} PopStateInStep(t: Tab, target: nat, search: seq<Param>, s: NavState)
    requires ValidTab(t) && target < |t.entries| && t.entries[target] == Search(Printed(search, s), 0)
    ensures InStep(Step(t, PopState(target))) <==> Tidy(s) && (PrintsSettings(s) || !t.store.settingsDialogOpen)
  {
    hide Printed, Parsed, Tidy, Applied, PrintsSettings;
    SharedLocation(search, s, t.store);
  }

  /** A failing family: over every page that does not imply it, the settings dialog stays open after
      going back, and the address no longer shows the store. */
  lemma {:induction false} BackLeavesDialogOpen(t: Tab)
    requires InStep(t) && !PrintsSettings(t.store)
    ensures var dialog := Step(t, StoreChange(t.store.(settingsDialogOpen := true)));
            var back := Step(dialog, PopState(t.index));
            && dialog.index == t.index + 1
            && back.store.settingsDialogOpen
            && ValidTab(back) && !InStep(back)
  {
    assert ValidTab(t);
    hide Printed, Parsed, Applied, NavValueOf, InStep;
    var s := t.store;
    var next := s.(settingsDialogOpen := true);
    var url := Current(t).pairs;
    StepAside(t);
    var dialog := Step(t, StoreChange(next));
    ParsedPrinted(url, s);
    DialogStays(next, s);
    PopStateInStep(dialog, t.index, url, s);
  }

  lemma {:induction false} StepAside(t: Tab)
    requires InStep(t) && !PrintsSettings(t.store)
    ensures var dialog := Step(t, StoreChange(t.store.(settingsDialogOpen := true)));
            && dialog.index == t.index + 1 && t.index < |dialog.entries|
            && dialog.entries[t.index] == Search(Printed(Current(t).pairs, t.store), 0)
            && dialog.store == t.store.(settingsDialogOpen := true)
  {
    hide Printed, Parsed, Applied, NavValueOf;
    var next := t.store.(settingsDialogOpen := true);
    StoreChangeIsLocal(t, next);
    var dialog := Step(t, StoreChange(next));
    SettingsOpenShows(Current(t).pairs, t.store, next);
    assert dialog.entries[t.index] == t.entries[..t.index + 1][t.index] == Current(t);
  }

  lemma {:induction false} DialogStays(next: NavState, s: NavState)
    requires !PrintsSettings(s) && next.settingsDialogOpen
    ensures Applied(next, TripPatch(s)).settingsDialogOpen && Applied(next, TripPatch(s)).section == s.section
  {
  }

  lemma {:induction false} SettingsOpenShows(url: seq<Param>, s: NavState, u: NavState)
    requires !PrintsSettings(s) && u.settingsDialogOpen && u.section == s.section
    ensures Printed(url, s) != Printed(url, u)
  {
    hide Printed;
    GetPrinted(url, s, SettingsOpen);
    GetPrinted(url, u, SettingsOpen);
  }
}
