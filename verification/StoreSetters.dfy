/** The setters of the UI store that keep a list or a pair of fields in order: recent and favourite
    settings pages and the experience mode (apps/web/src/store/ui-store.ts:514-538). */
module StoreSetters {
  import opened Sequences
  import opened Navigation

  // ------------------------------------------------------------- recent pages

  const MAX_RECENT := 5

  function Except<T(==)>(section: T): T -> bool {
    (item: T) => item != section
  }

  function MoveToFront<T(==,!new)>(recent: seq<T>, section: T): seq<T> {
    [section] + Filter(recent, Except(section))
  }

  /** `recordRecentSettingsSection` */
  function RecordRecent(recent: seq<SectionKey>, section: SectionKey): seq<SectionKey> {
    First(MoveToFront(recent, section), MAX_RECENT)
  }

  /** The recent list after a run of visits, from the empty list of a new store. */
  function RecentAfter(visits: seq<SectionKey>): seq<SectionKey> {
    if visits == [] then [] else RecordRecent(RecentAfter(visits[..|visits| - 1]), visits[|visits| - 1])
  }

  function Reverse<T>(s: seq<T>): (r: seq<T>)
    ensures |r| == |s|
  {
    if s == [] then [] else [s[|s| - 1]] + Reverse(s[..|s| - 1])
  }

  lemma {:induction false} DedupConsStep<T(!new)>(section: T, front: seq<T>, last: T)
    requires Dedup([section] + front) == MoveToFront(Dedup(front), section)
    ensures Dedup([section] + (front + [last])) == MoveToFront(Dedup(front + [last]), section)
  {
    hide Dedup, Filter;
    assert [section] + (front + [last]) == ([section] + front) + [last];
    DedupSnoc([section] + front, last);
    DedupSnoc(front, last);
    if last !in front {
      FilterSnoc(Dedup(front), last, Except(section));
    }
  }

  /** Keeping first occurrences moves a new head to the front. */
  lemma {:induction false} DedupCons<T(!new)>(section: T, s: seq<T>)
    ensures Dedup([section] + s) == MoveToFront(Dedup(s), section)
  {
    if s == [] {
      assert [section] + s == [section];
      assert [section][..0] == [];
    } else {
      hide Dedup, MoveToFront;
      DedupCons(section, s[..|s| - 1]);
      DedupConsStep(section, s[..|s| - 1], s[|s| - 1]);
      assert s[..|s| - 1] + [s[|s| - 1]] == s;
    }
  }

  lemma {:induction false} FilterDistinct<T(!new)>(s: seq<T>, section: T)
    requires Distinct(s)
    ensures |Filter(s, Except(section))| >= |s| - 1
    ensures section !in s ==> Filter(s, Except(section)) == s
    ensures Distinct(Filter(s, Except(section)))
  {
    if s != [] {
      FilterDistinct(s[1..], section);
      FilterMembers(s[1..], Except(section));
      if s[0] == section {
        assert section !in s[1..];
      }
    }
  }

  /** Cutting a list before or after moving an item to its front makes no difference. */
  lemma {:induction false} CutThenMove<T(!new)>(s: seq<T>, section: T, n: nat)
    requires Distinct(s) && n > 0
    ensures First(MoveToFront(First(s, n), section), n) == First(MoveToFront(s, section), n)
  {
    if |s| > n {
      hide Filter, Distinct;
      assert s == s[..n] + s[n..];
      FilterConcat(s[..n], s[n..], Except(section));
      DistinctPrefix(s, n);
      FilterDistinct(s[..n], section);
      CutConcat(section, Filter(s[..n], Except(section)), Filter(s[n..], Except(section)), n);
    }
  }

  lemma {:induction false} DistinctPrefix<T>(s: seq<T>, n: nat)
    requires n <= |s| && Distinct(s)
    ensures Distinct(s[..n])
  {
  }

  lemma {:induction false} CutConcat<T>(x: T, a: seq<T>, b: seq<T>, n: nat)
    requires n > 0 && |a| >= n - 1
    ensures First([x] + a, n) == First([x] + (a + b), n)
  {
    assert [x] + (a + b) == ([x] + a) + b;
  }

  /** Main result: the recent list is the five pages visited last, latest first, without
      repetition. */
  lemma {:induction false} RecentIsLastVisited(visits: seq<SectionKey>)
    ensures RecentAfter(visits) == First(Dedup(Reverse(visits)), 5)
    ensures Distinct(RecentAfter(visits))
  {
    hide IsSection;
    if visits != [] {
      var front, last := visits[..|visits| - 1], visits[|visits| - 1];
      RecentIsLastVisited(front);
      DedupCons(last, Reverse(front));
      CutThenMove(Dedup(Reverse(front)), last, MAX_RECENT);
    }
  }

  // ------------------------------------------------------------- favourites

  /** `toggleFavoriteSettingsSection` */
  function ToggleFavorite(favorites: seq<SectionKey>, section: SectionKey): seq<SectionKey> {
    if section in favorites then Filter(favorites, Except(section)) else favorites + [section]
  }

  function FavoritesAfter(toggles: seq<SectionKey>): seq<SectionKey> {
    if toggles == [] then [] else ToggleFavorite(FavoritesAfter(toggles[..|toggles| - 1]), toggles[|toggles| - 1])
  }

  function Count(s: seq<SectionKey>, section: SectionKey): nat {
    if s == [] then 0 else Count(s[..|s| - 1], section) + (if s[|s| - 1] == section then 1 else 0)
  }

  lemma {:induction false} ToggleMembers(favorites: seq<SectionKey>, toggled: SectionKey, section: SectionKey)
    requires Distinct(favorites)
    ensures section in ToggleFavorite(favorites, toggled) <==> (section in favorites) != (section == toggled)
    ensures Distinct(ToggleFavorite(favorites, toggled))
  {
    hide IsSection, Filter;
    FilterDistinct(favorites, toggled);
    FilterMembers(favorites, Except(toggled));
  }

  /** A page is a favourite exactly when it was toggled an odd number of times. */
  lemma {:induction false} FavoriteIsOdd(toggles: seq<SectionKey>, section: SectionKey)
    ensures section in FavoritesAfter(toggles) <==> Count(toggles, section) % 2 == 1
    ensures Distinct(FavoritesAfter(toggles))
  {
    hide IsSection, ToggleFavorite, Distinct;
    if toggles == [] {
      assert Distinct<SectionKey>([]) by {
        EmptyDistinct();
      }
    } else {
      var front, last := toggles[..|toggles| - 1], toggles[|toggles| - 1];
      FavoriteIsOdd(front, section);
      ToggleMembers(FavoritesAfter(front), last, section);
    }
  }

  lemma {:induction false} EmptyDistinct()
    ensures Distinct<SectionKey>([])
  {
  }

  // ------------------------------------------------------------- experience mode

  datatype ExperienceMode = Ordinary | Professional

  datatype Modes = Modes(experienceMode: ExperienceMode, workItemDetailPreference: WorkItemMode,
                         selectedWorkItemId: Option<string>, selectedWorkItemMode: WorkItemMode,
                         selectedWorkItemSection: WorkItemSection, taskArea: TaskArea)

  datatype Setter =
    | SetSelectedWorkItemId(id: Option<string>)
    | OpenWorkItem(item: string, mode: Option<WorkItemMode>, section: Option<WorkItemSection>)
    | CloseWorkItem
    | SetSelectedWorkItemMode(itemMode: WorkItemMode)
    | SetWorkItemDetailPreference(preference: WorkItemMode)
    | SetExperienceMode(experience: ExperienceMode)
    | SetTaskArea(area: TaskArea)

  function Set(m: Modes, setter: Setter): Modes {
    match setter
    case SetSelectedWorkItemId(id) =>
      m.(selectedWorkItemId := id,
         selectedWorkItemMode := if id.Some? && id.value != "" then m.workItemDetailPreference
             else m.selectedWorkItemMode,
         selectedWorkItemSection := "overview")
    case OpenWorkItem(item, mode, section) =>
      m.(selectedWorkItemId := Some(item),
         selectedWorkItemMode := if mode.Some? then mode.value else m.workItemDetailPreference,
         selectedWorkItemSection := if section.Some? then section.value else "overview")
    case CloseWorkItem => m.(selectedWorkItemId := None)
    case SetSelectedWorkItemMode(itemMode) => m.(selectedWorkItemMode := itemMode)
    case SetWorkItemDetailPreference(preference) =>
      m.(workItemDetailPreference := preference, experienceMode := if preference == "expert" then Professional
          else Ordinary)
    case SetExperienceMode(experience) =>
      var mode := if experience.Professional? then "expert" else "summary";
      m.(experienceMode := experience, workItemDetailPreference := mode, selectedWorkItemMode := mode,
         taskArea := if experience.Ordinary? then "overview" else m.taskArea)
    case SetTaskArea(area) => m.(taskArea := area)
  }

  const INITIAL_MODES := Modes(Ordinary, "summary", None, "summary", "overview", "overview")

  function ModesAfter(setters: seq<Setter>): Modes {
    if setters == [] then INITIAL_MODES else Set(ModesAfter(setters[..|setters| - 1]), setters[|setters| - 1])
  }

  /** In every run of setters the product is in professional mode exactly when task details open
      as `expert`. */
  lemma {:induction false} ModesAgree(setters: seq<Setter>)
    ensures ModesAfter(setters).experienceMode.Professional?
       <==> ModesAfter(setters).workItemDetailPreference == "expert"
  {
    hide IsWorkItemSection, IsTaskArea;
    if setters != [] {
      ModesAgree(setters[..|setters| - 1]);
    }
  }

  // ------------------------------------------------------------- what the setters change

  /** A new favourite comes last; taking one away keeps the others in their order. */
  lemma {:induction false} ToggleOrder(favorites: seq<SectionKey>, before: seq<SectionKey>, section: SectionKey,
                                       after: seq<SectionKey>)
    ensures section !in favorites ==> ToggleFavorite(favorites, section) == favorites + [section]
    ensures section !in before && section !in after ==>
              ToggleFavorite(before + [section] + after, section) == before + after
  {
    hide IsSection, Filter;
    if section !in before && section !in after {
      FilterConcat(before + [section], after, Except(section));
      FilterConcat(before, [section], Except(section));
      FilterAll(before, Except(section));
      FilterAll(after, Except(section));
      FilterEmpty([section], Except(section));
    }
  }

  /** How an item opens: on its overview and in the preferred mode, unless the caller says otherwise;
      deselecting keeps the mode. */
  lemma {:induction false} ItemOpens(m: Modes, id: string, mode: Option<WorkItemMode>, section: Option<WorkItemSection>)
    ensures var r := Set(m, OpenWorkItem(id, mode, section));
            && r.selectedWorkItemId == Some(id)
            && (mode.None? ==> r.selectedWorkItemMode == m.workItemDetailPreference)
            && (mode.Some? ==> Some(r.selectedWorkItemMode) == mode)
            && (section.None? ==> r.selectedWorkItemSection == "overview")
            && (section.Some? ==> Some(r.selectedWorkItemSection) == section)
            && r.experienceMode == m.experienceMode && r.taskArea == m.taskArea
            && r.workItemDetailPreference == m.workItemDetailPreference
    ensures var r := Set(m, SetSelectedWorkItemId(Some(id)));
            && r.selectedWorkItemId == Some(id) && r.selectedWorkItemSection == "overview"
            && r.selectedWorkItemMode == (if id != "" then m.workItemDetailPreference else m.selectedWorkItemMode)
            && r.experienceMode == m.experienceMode && r.taskArea == m.taskArea
            && r.workItemDetailPreference == m.workItemDetailPreference
    ensures Set(m, CloseWorkItem) == m.(selectedWorkItemId := None)
    ensures var r := Set(m, SetSelectedWorkItemId(None));
            r.selectedWorkItemId == None && r.selectedWorkItemMode == m.selectedWorkItemMode
            && r.selectedWorkItemSection == "overview"
  {
    hide IsWorkItemSection, IsTaskArea, IsWorkItemMode;
  }

  /** What the experience mode sets: the detail preference and the open item's mode; the ordinary one
      also goes back to the task overview. Setting the preference leaves the open item alone. */
  lemma {:induction false} ExperienceSets(m: Modes)
    ensures var r := Set(m, SetExperienceMode(Professional));
            && r.experienceMode == Professional && r.workItemDetailPreference == "expert"
            && r.selectedWorkItemMode == "expert" && r.taskArea == m.taskArea
            && r.selectedWorkItemId == m.selectedWorkItemId && r.selectedWorkItemSection == m.selectedWorkItemSection
    ensures var r := Set(m, SetExperienceMode(Ordinary));
            && r.experienceMode == Ordinary && r.workItemDetailPreference == "summary"
            && r.selectedWorkItemMode == "summary" && r.taskArea == "overview"
            && r.selectedWorkItemId == m.selectedWorkItemId && r.selectedWorkItemSection == m.selectedWorkItemSection
    ensures ModesAfter([]) == Modes(Ordinary, "summary", None, "summary", "overview", "overview")
    ensures Set(m, SetWorkItemDetailPreference("expert"))
         == m.(workItemDetailPreference := "expert", experienceMode := Professional)
    ensures Set(m, SetWorkItemDetailPreference("summary"))
         == m.(workItemDetailPreference := "summary", experienceMode := Ordinary)
  {
  }
}
