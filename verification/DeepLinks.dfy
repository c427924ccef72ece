/** Links that other surfaces hand out (apps/web/src/app/deep-links.ts). A URL is its search
    parameters between an unchanged front (origin and path) and an unchanged hash. */
module DeepLinks {
  import opened Sequences
  import opened UrlParams
  import opened Navigation
  import opened NavigationLaws
  import NavigationReading

  datatype Url = Url(front: string, search: seq<Param>, hash: string)

  datatype WebNavigationTarget = WebNavigationTarget(
    section: SectionKey,
    selectedInvocationId: Option<string>,
    selectedApplicationId: Option<string>,
    selectedApplicationRun: Option<ApplicationRun>,
    selectedEvidenceId: Option<string>,
    selectedAutomationId: Option<string>)

  /** The state that printing sees; the fields a link does not set are absent in the source, which
      prints like their defaults. */
  function TargetState(t: WebNavigationTarget): NavState {
    NavState(t.section, t.selectedInvocationId, t.selectedApplicationId, t.selectedApplicationRun, t.selectedEvidenceId,
             t.selectedAutomationId, None, "summary", "overview", "overview", "issue", false, None, "", None, "list",
                 DEFAULT_FILTERS)
  }

  method WebDeepLink(target: WebNavigationTarget, href: Url) returns (url: Url)
    ensures url == href.(search := Printed(href.search, TargetState(target)))
  {
    url := href;
    var search := SearchFromNavigationState(url.search, TargetState(target));
    url := url.(search := search);
  }

  function InvocationTarget(invocationId: string): WebNavigationTarget {
    WebNavigationTarget("invocations", Some(invocationId), None, None, None, None)
  }

  function RunTarget(selection: ApplicationRun): WebNavigationTarget {
    WebNavigationTarget("applications", None, Some(selection.applicationId), Some(selection), None, None)
  }

  function EvidenceTarget(evidenceId: string): WebNavigationTarget {
    WebNavigationTarget("audit", None, None, None, Some(evidenceId), None)
  }

  /** The store of a console, in any state, after it follows a link. */
  function Followed(s: NavState, target: WebNavigationTarget, href: Url): NavState {
    Applied(s, Parsed(Printed(href.search, TargetState(target))))
  }

  /** Following a link to an application run selects that run if and only if its three ids are
      trimmed and not empty. */
  lemma {:induction false} RunLinkRestores(selection: ApplicationRun, href: Url, s: NavState)
    ensures Followed(s, RunTarget(selection), href).section == "applications"
    ensures Followed(s, RunTarget(selection), href).selectedApplicationRun == Some(selection)
       <==> (&& CleanId(Some(selection.applicationId)) && CleanId(Some(selection.routineId))
             && CleanId(Some(selection.invocationId)))
    ensures CleanId(Some(selection.applicationId))
       ==> Followed(s, RunTarget(selection), href).selectedApplicationId == Some(selection.applicationId)
  {
    hide Printed, Parsed, Trim, Trimmed, IsSection;
    ParsedPrinted(href.search, TargetState(RunTarget(selection)));
    TrimLaws(selection.applicationId);
    TrimLaws(selection.routineId);
    TrimLaws(selection.invocationId);
    EmptyTrim();
  }

  /** The same for the links to an invocation and to a piece of evidence; each also clears the
      selections that the link does not name. */
  lemma {:induction false} IdLinksRestore(id: string, href: Url, s: NavState)
    ensures Followed(s, InvocationTarget(id), href).section == "invocations"
    ensures Followed(s, InvocationTarget(id), href).selectedInvocationId == Some(id) <==> CleanId(Some(id))
    ensures Followed(s, EvidenceTarget(id), href).section == "audit"
    ensures Followed(s, EvidenceTarget(id), href).selectedEvidenceId == Some(id) <==> CleanId(Some(id))
    ensures Followed(s, EvidenceTarget(id), href).selectedInvocationId == None
    ensures Followed(s, EvidenceTarget(id), href).selectedApplicationRun == None
  {
    hide Printed, Parsed, Trim, Trimmed, IsSection, IdTrip;
    ParsedPrinted(href.search, TargetState(InvocationTarget(id)));
    ParsedPrinted(href.search, TargetState(EvidenceTarget(id)));
    IdTripClean(Some(id));
    IdTripClean(None);
  }

  // ------------------------------------------------------------- server-provided links

  const NAVIGATION_QUERY_KEYS: seq<Key> := [Section, Invocation, Application, Routine, Run, Evidence]

  function LinkValue(query: seq<Param>): Key -> Option<string> {
    (k: Key) => StringParam(query, k)
  }

  /** The current parameters without the six link keys, then those of the link that have text. */
  function Linked(query: seq<Param>, search: seq<Param>): seq<Param> {
    Filter(search, OtherThan(NAVIGATION_QUERY_KEYS)) + Collect(NAVIGATION_QUERY_KEYS, LinkValue(query))
  }

  method WebNavigationLinkDeepLink(query: seq<Param>, href: Url) returns (url: Url)
    ensures url == href.(search := Linked(query, href.search))
  {
    hide Linked, Set, StringParam, NAVIGATION_QUERY_KEYS;
    LinkKeysDistinct();
    var current := new UrlSearchParams(href.search);
    FilterAll(href.search, OtherThan([]));
    for i := 0 to |NAVIGATION_QUERY_KEYS|
      invariant current.list == Filter(href.search, OtherThan(NAVIGATION_QUERY_KEYS[..i]))
    {
      DeleteLinkKey(href.search, i);
      current.DeleteKey(NAVIGATION_QUERY_KEYS[i]);
    }
    ghost var base := Filter(href.search, OtherThan(NAVIGATION_QUERY_KEYS));
    FilterMembers(href.search, OtherThan(NAVIGATION_QUERY_KEYS));
    assert NAVIGATION_QUERY_KEYS[..|NAVIGATION_QUERY_KEYS|] == NAVIGATION_QUERY_KEYS;
    for i := 0 to |NAVIGATION_QUERY_KEYS|
      invariant current.list == base + Collect(NAVIGATION_QUERY_KEYS[..i], LinkValue(query))
    {
      CollectStep(base, NAVIGATION_QUERY_KEYS, LinkValue(query), i);
      var value := StringParam(query, NAVIGATION_QUERY_KEYS[i]);
      if value.Some? {
        current.SetKey(NAVIGATION_QUERY_KEYS[i], value.value);
      }
    }
    LinkedIs(query, href.search);
    url := href.(search := current.list);
  }

  lemma {:induction false} LinkedIs(query: seq<Param>, search: seq<Param>)
    ensures Linked(query, search)
         == Filter(search, OtherThan(NAVIGATION_QUERY_KEYS)) + Collect(NAVIGATION_QUERY_KEYS, LinkValue(query))
  {
  }

  lemma {:induction false} DeleteLinkKey(search: seq<Param>, i: nat)
    requires i < |NAVIGATION_QUERY_KEYS|
    ensures Delete(Filter(search, OtherThan(NAVIGATION_QUERY_KEYS[..i])), NAVIGATION_QUERY_KEYS[i])
         == Filter(search, OtherThan(NAVIGATION_QUERY_KEYS[..i + 1]))
  {
    var p, q := OtherThan(NAVIGATION_QUERY_KEYS[..i]), Without(NAVIGATION_QUERY_KEYS[i]);
    assert NAVIGATION_QUERY_KEYS[..i + 1] == NAVIGATION_QUERY_KEYS[..i] + [NAVIGATION_QUERY_KEYS[i]];
    FilterTwice(search, p, q);
    FilterCong(search, Both(p, q), OtherThan(NAVIGATION_QUERY_KEYS[..i + 1]));
  }

  lemma {:induction false} LinkKeysDistinct()
    ensures Distinct(NAVIGATION_QUERY_KEYS)
  {
  }

  /** A link key reads back as the link's own value, whatever the address said before; every other
      parameter stays. */
  lemma {:induction false} LinkReadsBack(query: seq<Param>, search: seq<Param>, k: Key)
    ensures k in NAVIGATION_QUERY_KEYS ==> StringParam(Linked(query, search), k) == StringParam(query, k)
    ensures k !in NAVIGATION_QUERY_KEYS ==> Get(Linked(query, search), k) == Get(search, k)
  {
    hide Collect, NAVIGATION_QUERY_KEYS, Trim;
    var kept, own := Filter(search, OtherThan(NAVIGATION_QUERY_KEYS)), Collect(NAVIGATION_QUERY_KEYS, LinkValue(query));
    LinkKeysDistinct();
    FilterMembers(search, OtherThan(NAVIGATION_QUERY_KEYS));
    GetConcat(kept, own, k);
    GetCollect(NAVIGATION_QUERY_KEYS, LinkValue(query), k);
    if k in NAVIGATION_QUERY_KEYS {
      HasMember(kept, k);
      if Has(query, k) {
        TrimLaws(Get(query, k).value);
      }
    } else {
      GetFiltered(search, NAVIGATION_QUERY_KEYS, k);
    }
  }

  lemma {:induction false} GetFiltered(search: seq<Param>, keys: seq<Key>, k: Key)
    requires k !in keys
    ensures Get(Filter(search, OtherThan(keys)), k) == Get(search, k)
  {
    if search != [] {
      GetFiltered(search[1..], keys, k);
    }
  }

  lemma {:induction false} KeptOnce(keys: seq<Key>, value: Key -> Option<string>, search: seq<Param>)
    ensures Filter(Filter(search, OtherThan(keys)) + Collect(keys, value), OtherThan(keys))
         == Filter(search, OtherThan(keys))
  {
    var kept, own := Filter(search, OtherThan(keys)), Collect(keys, value);
    FilterMembers(search, OtherThan(keys));
    FilterConcat(kept, own, OtherThan(keys));
    FilterAll(kept, OtherThan(keys));
    CollectMembers(keys, value);
    FilterNone(own, OtherThan(keys));
  }

  /** Following the same link twice gives the same address as following it once. */
  lemma {:induction false} LinkIdempotent(query: seq<Param>, search: seq<Param>)
    ensures Linked(query, Linked(query, search)) == Linked(query, search)
  {
    hide Collect, NAVIGATION_QUERY_KEYS, LinkValue;
    KeptOnce(NAVIGATION_QUERY_KEYS, LinkValue(query), search);
  }

  /** Main result on links: following a link to any target with clean ids, from any console, selects
      its section and exactly its ids. */
  lemma {:induction false} TargetRestores(target: WebNavigationTarget, href: Url, s: NavState)
    requires CleanId(target.selectedInvocationId) && CleanId(target.selectedEvidenceId)
    requires CleanId(target.selectedAutomationId) && CleanRun(TargetState(target))
    ensures var r := Followed(s, target, href);
            && r.section == target.section
            && r.selectedInvocationId == target.selectedInvocationId
            && r.selectedApplicationId == target.selectedApplicationId
            && r.selectedApplicationRun == target.selectedApplicationRun
            && r.selectedEvidenceId == target.selectedEvidenceId
            && r.selectedAutomationId == target.selectedAutomationId
            && r.selectedWorkItemId == None && r.taskArea == "overview"
  {
    ParsedPrinted(href.search, TargetState(target));
    IdTripClean(target.selectedInvocationId);
    IdTripClean(target.selectedEvidenceId);
    IdTripClean(target.selectedAutomationId);
    IdTripClean(None);
    assert CleanId(None);
    RunTripClean(TargetState(target));
    hide Printed, Parsed, Trim, Trimmed, IsSection, IdTrip, RunTrip, FiltersTrip, CleanId, CleanRun;
  }

  function LinkKey(k: Key): bool {
    k == Section || k == Invocation || k == Application || k == Routine || k == Run || k == Evidence
  }

  function NotLinkKey(): Param -> bool {
    (p: Param) => !LinkKey(p.key)
  }

  /** Which parameters a link sets: exactly the six; all others stay, in order. */
  lemma {:induction false} LinkKeys(query: seq<Param>, search: seq<Param>, k: Key)
    ensures LinkKey(k) ==> StringParam(Linked(query, search), k) == StringParam(query, k)
    ensures Filter(Linked(query, search), NotLinkKey()) == Filter(search, NotLinkKey())
  {
    hide StringParam, Filter, Linked;
    LinkKeyList(k);
    LinkReadsBack(query, search, k);
    LinkedIs(query, search);
    KeptOnce(NAVIGATION_QUERY_KEYS, LinkValue(query), search);
    forall p: Param ensures OtherThan(NAVIGATION_QUERY_KEYS)(p) == NotLinkKey()(p) {
      LinkKeyList(p.key);
    }
    FilterCong(Linked(query, search), OtherThan(NAVIGATION_QUERY_KEYS), NotLinkKey());
    FilterCong(search, OtherThan(NAVIGATION_QUERY_KEYS), NotLinkKey());
  }

  lemma {:induction false} LinkKeyList(k: Key)
    ensures k in NAVIGATION_QUERY_KEYS <==> LinkKey(k)
  {
    assert NAVIGATION_QUERY_KEYS == [Section, Invocation, Application, Routine, Run, Evidence];
  }

  /** One pair of a link, if the link has text for the key. */
  function LinkPair(query: seq<Param>, k: Key): seq<Param> {
    NavigationReading.Pair(k, LinkValue(query))
  }

  /** The order of a linked address: the other parameters, then section, invocation, application,
      routine, run and evidence. */
  lemma {:induction false} LinkedPairs(query: seq<Param>, search: seq<Param>)
    ensures Linked(query, search)
         == Filter(search, NotLinkKey())
            + (LinkPair(query, Section) + LinkPair(query, Invocation) + LinkPair(query, Application)
               + (LinkPair(query, Routine) + LinkPair(query, Run) + LinkPair(query, Evidence)))
  {
    var value := LinkValue(query);
    LinkedIs(query, search);
    forall p: Param ensures OtherThan(NAVIGATION_QUERY_KEYS)(p) == NotLinkKey()(p) {
      LinkKeyList(p.key);
    }
    FilterCong(search, OtherThan(NAVIGATION_QUERY_KEYS), NotLinkKey());
    hide Filter, Collect, NavigationReading.Pair, LinkValue;
    NavigationReading.CollectThree(Section, Invocation, Application, value);
    NavigationReading.CollectThree(Routine, Run, Evidence, value);
    NavigationReading.CollectConcat([Section, Invocation, Application], [Routine, Run, Evidence], value);
    assert NAVIGATION_QUERY_KEYS == [Section, Invocation, Application] + [Routine, Run, Evidence];
  }
}
