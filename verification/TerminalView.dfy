/** The terminal view, which writes only the output that it has not shown yet
    (apps/web/public/app/terminal-surface.js:58-93, 137-171). */
module TerminalView {
  import opened Sequences

  /** An evidence record; `at` is its parsed creation time. */
  datatype Record = Record(id: string, sessionId: string, kind: string, at: int, output: Option<string>)

  const PLACEHOLDER := "Managed terminal output appears here after you attach a managed PTY.\r\n"

  function OutputOf(r: Record): string {
    if r.output.Some? then r.output.value else ""
  }

  function IsOutput(): Record -> bool {
    (r: Record) => r.kind == "terminal_output_chunk"
  }

  function OfSession(sessionId: string): Record -> bool {
    (r: Record) => r.sessionId == sessionId
  }

  function Earlier(): (Record, Record) -> bool {
    (a: Record, b: Record) => a.at <= b.at
  }

  /** `latestTerminalSession`: the first session of a state. */
  function LatestSession(sessions: seq<string>): Option<string> {
    if sessions == [] then None else Some(sessions[0])
  }

  /** `terminalEvidenceForSession` */
  function EvidenceFor(records: seq<Record>, session: Option<string>): seq<Record> {
    if session.None? then (if |records| <= 8 then records else records[..8])
    else Filter(records, OfSession(session.value))
  }

  /** The output records of an evidence list, in order of time. */
  function InOrder(evidence: seq<Record>): seq<Record> {
    StableSort(Filter(evidence, IsOutput()), Earlier())
  }

  function Text(records: seq<Record>): string {
    if records == [] then "" else OutputOf(records[0]) + Text(records[1..])
  }

  function Ids(records: seq<Record>): set<string> {
    set r | r in records :: r.id
  }

  /** The records of a list that are new to a set of shown ids, each id once. */
  function Unseen(records: seq<Record>, shown: set<string>): seq<Record> {
    if records == [] then []
    else if records[0].id in shown then Unseen(records[1..], shown)
    else [records[0]] + Unseen(records[1..], shown + {records[0].id})
  }

  // ------------------------------------------------------------- the view as a function

  /** The session shown, the ids written since the last reset and what the screen reads. */
  datatype View = View(session: Option<string>, shown: set<string>, text: string)

  const NEW_VIEW := View(None, {}, "")

  function Show(v: View, records: seq<Record>): View {
    var unseen := Unseen(records, v.shown);
    v.(shown := v.shown + Ids(unseen), text := v.text + Text(unseen))
  }

  function Rendered(v: View, session: Option<string>, evidence: seq<Record>): View {
    if session.None? then
      var w := if v.session.Some? then NEW_VIEW else v;
      if w.shown == {} then View(None, {"empty"}, w.text + PLACEHOLDER) else w
    else
      Show(if v.session == session then v else View(session, {}, ""), InOrder(evidence))
  }

  // ------------------------------------------------------------- the view as code

  class TerminalSurface {
    var sessionId: Option<string>
    var renderedEvidenceIds: set<string>
    var text: string

    function Abs(): View
      reads this
    {
      View(sessionId, renderedEvidenceIds, text)
    }

    constructor ()
      ensures Abs() == NEW_VIEW
    {
      sessionId, renderedEvidenceIds, text := None, {}, "";
    }

    method Reset()
      modifies this
      ensures renderedEvidenceIds == {} && text == "" && sessionId == old(sessionId)
    {
      text := "";
      renderedEvidenceIds := {};
    }

    method RenderTerminalEmulator(session: Option<string>, evidence: seq<Record>)
      modifies this
      ensures Abs() == Rendered(old(Abs()), session, evidence)
    {
      if session.None? {
        if sessionId.Some? {
          Reset();
          sessionId := None;
        }
        if renderedEvidenceIds == {} {
          text := text + PLACEHOLDER;
          renderedEvidenceIds := renderedEvidenceIds + {"empty"};
        }
        return;
      }
      if sessionId != session {
        Reset();
        sessionId := session;
      }
      WriteUnseen(InOrder(evidence));
    }

    method WriteUnseen(outputRecords: seq<Record>)
      modifies this
      ensures Abs() == Show(old(Abs()), outputRecords)
    {
      hide Text, Unseen, Ids;
      ghost var v := Abs();
      ShowEnds(v, outputRecords);
      for i := 0 to |outputRecords|
        invariant sessionId == v.session
        invariant renderedEvidenceIds == v.shown + Ids(Unseen(outputRecords[..i], v.shown))
        invariant text == v.text + Text(Unseen(outputRecords[..i], v.shown))
      {
        var record := outputRecords[i];
        UnseenStep(outputRecords, i, v.shown);
        if record.id in renderedEvidenceIds {
          continue;
        }
        text := text + OutputOf(record);
        renderedEvidenceIds := renderedEvidenceIds + {record.id};
      }
    }

    /** The first session of the state is shown, with its own records. */
    method RenderTerminalSurface(sessions: seq<string>, records: seq<Record>)
      modifies this
      ensures Abs() == Rendered(old(Abs()), LatestSession(sessions), EvidenceFor(records, LatestSession(sessions)))
    {
      var session := LatestSession(sessions);
      RenderTerminalEmulator(session, EvidenceFor(records, session));
    }
  }

  // ------------------------------------------------------------- what is written

  lemma {:induction false} ShowEnds(v: View, records: seq<Record>)
    ensures Unseen(records[..0], v.shown) == [] && Text([]) == "" && Ids([]) == {}
    ensures records[..|records|] == records
  {
  }

  lemma {:induction false} TextConcat(a: seq<Record>, b: seq<Record>)
    ensures Text(a + b) == Text(a) + Text(b)
  {
    if a == [] {
      assert a + b == b;
    } else {
      assert (a + b)[1..] == a[1..] + b;
      TextConcat(a[1..], b);
    }
  }

  lemma {:induction false} IdsConcat(a: seq<Record>, b: seq<Record>)
    ensures Ids(a + b) == Ids(a) + Ids(b)
  {
  }

  lemma {:induction false} UnseenSnoc(records: seq<Record>, r: Record, shown: set<string>)
    ensures Unseen(records + [r], shown)
         == Unseen(records, shown) + (if r.id in shown || r.id in Ids(records) then [] else [r])
  {
    if records == [] {
      assert records + [r] == [r];
    } else {
      assert (records + [r])[1..] == records[1..] + [r];
      assert records == [records[0]] + records[1..];
      IdsConcat([records[0]], records[1..]);
      assert Ids([records[0]]) == {records[0].id};
      UnseenSnoc(records[1..], r, if records[0].id in shown then shown else shown + {records[0].id});
    }
  }

  /** Showing the unseen records shows every id of the list. */
  lemma {:induction false} UnseenIds(records: seq<Record>, shown: set<string>)
    ensures shown + Ids(Unseen(records, shown)) == shown + Ids(records)
  {
    if records != [] {
      var shown' := if records[0].id in shown then shown else shown + {records[0].id};
      UnseenIds(records[1..], shown');
      assert records == [records[0]] + records[1..];
      IdsConcat([records[0]], records[1..]);
      assert Ids([records[0]]) == {records[0].id};
      if records[0].id !in shown {
        IdsConcat([records[0]], Unseen(records[1..], shown'));
      }
    }
  }

  lemma {:induction false} UnseenStep(records: seq<Record>, i: nat, shown: set<string>)
    requires i < |records|
    ensures var before, after := Unseen(records[..i], shown), Unseen(records[..i + 1], shown);
            if records[i].id in shown + Ids(before) then after == before
            else Text(after) == Text(before) + OutputOf(records[i]) && Ids(after) == Ids(before) + {records[i].id}
  {
    var before := Unseen(records[..i], shown);
    assert records[..i + 1] == records[..i] + [records[i]];
    UnseenSnoc(records[..i], records[i], shown);
    UnseenIds(records[..i], shown);
    if records[i].id !in shown + Ids(before) {
      TextConcat(before, [records[i]]);
      IdsConcat(before, [records[i]]);
      assert Text([records[i]]) == OutputOf(records[i]) + Text([]);
      assert Ids([records[i]]) == {records[i].id};
    }
  }

  ghost predicate UniqueIds(records: seq<Record>) {
    forall i, j :: 0 <= i < j < |records| ==> records[i].id != records[j].id
  }

  /** Between resets no id is written twice: what a render writes has distinct ids, none of them
      shown before, and afterwards every id of the evidence is shown. */
  lemma {:induction false} WrittenOnce(records: seq<Record>, shown: set<string>)
    ensures UniqueIds(Unseen(records, shown))
    ensures forall r :: r in Unseen(records, shown) ==> r in records && r.id !in shown
    ensures Ids(records) <= shown + Ids(Unseen(records, shown))
  {
    UnseenIds(records, shown);
    if records != [] {
      WrittenOnce(records[1..], if records[0].id in shown then shown else shown + {records[0].id});
    }
  }

  // ------------------------------------------------------------- incremental is full redraw

  /** Rendering a list on a reset screen. */
  function Redraw(session: string, evidence: seq<Record>): View {
    Rendered(NEW_VIEW, Some(session), evidence)
  }

  function ShownIn(shown: set<string>): Record -> bool {
    (r: Record) => r.id in shown
  }

  lemma {:induction false} UnseenIsFilter(records: seq<Record>, shown: set<string>)
    requires UniqueIds(records)
    ensures Unseen(records, shown) == Filter(records, Not(ShownIn(shown)))
  {
    if records != [] {
      if records[0].id in shown {
        UnseenIsFilter(records[1..], shown);
      } else {
        var shown' := shown + {records[0].id};
        UnseenIsFilter(records[1..], shown');
        forall r | r in records[1..] ensures Not(ShownIn(shown'))(r) == Not(ShownIn(shown))(r) {
          var k :| 0 <= k < |records[1..]| && records[1..][k] == r;
          assert records[k + 1] == r;
        }
        FilterCong(records[1..], Not(ShownIn(shown')), Not(ShownIn(shown)));
      }
    }
  }

  lemma {:induction false} EarlierIsPreorder()
    ensures TotalPreorder(Earlier())
  {
  }

  lemma {:induction false} FilterInsert(e: Record, s: seq<Record>, p: Record -> bool)
    requires Sorted(s, Earlier())
    ensures Filter(Insert(e, s, Earlier()), p) == if p(e) then Insert(e, Filter(s, p), Earlier()) else Filter(s, p)
  {
    if s == [] {
    } else if e.at <= s[0].at {
      assert ([e] + s)[1..] == s;
      FilterMembers(s, p);
      if Filter(s, p) != [] {
        var first := Filter(s, p)[0];
        assert first in s;
        var k :| 0 <= k < |s| && s[k] == first;
        assert Earlier()(s[0], s[k]) || k == 0;
      }
    } else {
      FilterInsert(e, s[1..], p);
      assert ([s[0]] + Insert(e, s[1..], Earlier()))[1..] == Insert(e, s[1..], Earlier());
      if p(s[0]) {
        assert ([s[0]] + Filter(s[1..], p))[1..] == Filter(s[1..], p);
      }
    }
  }

  /** Selecting records and sorting them commute. */
  lemma {:induction false} FilterSort(s: seq<Record>, p: Record -> bool)
    ensures Filter(StableSort(s, Earlier()), p) == StableSort(Filter(s, p), Earlier())
  {
    if s != [] {
      FilterSort(s[1..], p);
      EarlierIsPreorder();
      SortSorts(s[1..], Earlier());
      FilterInsert(s[0], StableSort(s[1..], Earlier()), p);
      if p(s[0]) {
        assert ([s[0]] + Filter(s[1..], p))[1..] == Filter(s[1..], p);
      }
    }
  }

  /** No record of `late` is older than one of `early`. */
  ghost predicate NotEarlier(early: seq<Record>, late: seq<Record>) {
    forall a, b :: a in early && b in late ==> a.at <= b.at
  }

  lemma {:induction false} InsertFront(e: Record, early: seq<Record>, late: seq<Record>)
    requires forall r :: r in late ==> e.at <= r.at
    ensures Insert(e, early + late, Earlier()) == Insert(e, early, Earlier()) + late
  {
    if early == [] {
      assert early + late == late;
    } else if e.at > early[0].at {
      assert (early + late)[1..] == early[1..] + late;
      InsertFront(e, early[1..], late);
    }
  }

  lemma {:induction false} SortConcat(early: seq<Record>, late: seq<Record>)
    requires NotEarlier(early, late)
    ensures StableSort(early + late, Earlier()) == StableSort(early, Earlier()) + StableSort(late, Earlier())
  {
    if early == [] {
      assert early + late == late;
    } else {
      assert (early + late)[1..] == early[1..] + late;
      SortConcat(early[1..], late);
      SortMembers(late, Earlier());
      InsertFront(early[0], StableSort(early[1..], Earlier()), StableSort(late, Earlier()));
    }
  }

  lemma {:induction false} SortedConcat(x: seq<Record>, y: seq<Record>)
    requires Sorted(x + y, Earlier())
    ensures NotEarlier(x, y)
  {
    forall a, b | a in x && b in y ensures a.at <= b.at {
      var i :| 0 <= i < |x| && x[i] == a;
      var j :| 0 <= j < |y| && y[j] == b;
      assert Earlier()((x + y)[i], (x + y)[|x| + j]);
    }
  }

  /** Writing the late records after the early ones keeps the screen in order of time exactly when
      no late record is older than an early one. */
  lemma {:induction false} AppendingIsSorting(early: seq<Record>, late: seq<Record>)
    ensures StableSort(early + late, Earlier()) == StableSort(early, Earlier()) + StableSort(late, Earlier())
       <==> NotEarlier(early, late)
  {
    if NotEarlier(early, late) {
      SortConcat(early, late);
    }
    if StableSort(early + late, Earlier()) == StableSort(early, Earlier()) + StableSort(late, Earlier()) {
      hide StableSort;
      EarlierIsPreorder();
      SortSorts(early + late, Earlier());
      SortedConcat(StableSort(early, Earlier()), StableSort(late, Earlier()));
      SortMembers(early, Earlier());
      SortMembers(late, Earlier());
    }
  }

  function Outputs(evidence: seq<Record>): seq<Record> {
    Filter(evidence, IsOutput())
  }

  /** All output records seen so far, when `seen` were and `evidence` comes in. */
  function SeenAfter(seen: seq<Record>, evidence: seq<Record>): seq<Record> {
    seen + Filter(Outputs(evidence), Not(ShownIn(Ids(seen))))
  }

  /** The screen that a full redraw of the output records `seen` gives. */
  function FullRedraw(session: string, seen: seq<Record>): View {
    View(Some(session), Ids(seen), Text(StableSort(seen, Earlier())))
  }

  lemma {:induction false} UniqueSorted(records: seq<Record>)
    requires UniqueIds(records)
    ensures UniqueIds(StableSort(records, Earlier()))
  {
    var s := StableSort(records, Earlier());
    forall i, j | 0 <= i < j < |s| ensures s[i].id != s[j].id {
      if s[i].id == s[j].id {
        OneOfId(records, s[i], s[j]);
        SortMembers(records, Earlier());
        assert s[i] in records && s[j] in records;
        assert s[i] == s[j];
        TwiceInMultiset(s, i, j);
        OnceInMultiset(records, s[i]);
      }
    }
  }

  lemma {:induction false} OneOfId(records: seq<Record>, a: Record, b: Record)
    requires UniqueIds(records) && a.id == b.id
    ensures a in records && b in records ==> a == b
  {
  }

  lemma {:induction false} TwiceInMultiset(s: seq<Record>, i: nat, j: nat)
    requires i < j < |s| && s[i] == s[j]
    ensures multiset(s)[s[i]] >= 2
  {
    assert s == s[..i] + [s[i]] + s[i + 1..j] + [s[j]] + s[j + 1..];
  }

  lemma {:induction false} OnceInMultiset(s: seq<Record>, r: Record)
    requires UniqueIds(s)
    ensures multiset(s)[r] <= 1
  {
    if s != [] {
      OnceInMultiset(s[1..], r);
      assert s == [s[0]] + s[1..];
      if s[0] == r {
        assert r !in s[1..];
      }
    }
  }

  /** A full redraw is what rendering on a reset screen gives. */
  lemma {:induction false} RedrawIsRender(session: string, evidence: seq<Record>, v: View)
    requires v.session != Some(session) && UniqueIds(Outputs(evidence))
    ensures Rendered(v, Some(session), evidence) == FullRedraw(session, Outputs(evidence))
  {
    var sorted := InOrder(evidence);
    UniqueSorted(Outputs(evidence));
    UnseenIsFilter(sorted, {});
    FilterAll(sorted, Not(ShownIn({})));
    SortMembers(Outputs(evidence), Earlier());
    SameIds(sorted, Outputs(evidence));
    hide Unseen, Text, UniqueIds, StableSort, Ids;
    NothingShown();
  }

  lemma {:induction false} NothingShown()
    ensures Ids([]) == {} && forall s: set<string> :: {} + s == s
    ensures forall t: string :: "" + t == t
  {
  }

  lemma {:induction false} SameIds(a: seq<Record>, b: seq<Record>)
    requires forall r :: r in a <==> r in b
    ensures Ids(a) == Ids(b)
  {
  }

  /** Main step: on a screen that is a full redraw of the records seen, rendering more evidence with
      distinct ids, none of whose new records is older than one already shown, gives the full
      redraw of everything seen. */
  lemma {:induction false} RenderIsRedraw(session: string, seen: seq<Record>, evidence: seq<Record>)
    requires UniqueIds(Outputs(evidence))
    requires NotEarlier(seen, Filter(Outputs(evidence), Not(ShownIn(Ids(seen)))))
    ensures Rendered(FullRedraw(session, seen), Some(session), evidence)
         == FullRedraw(session, SeenAfter(seen, evidence))
  {
    hide Unseen, Text, UniqueIds;
    var late := Filter(Outputs(evidence), Not(ShownIn(Ids(seen))));
    var sorted := InOrder(evidence);
    UniqueSorted(Outputs(evidence));
    UnseenIsFilter(sorted, Ids(seen));
    FilterSort(Outputs(evidence), Not(ShownIn(Ids(seen))));
    assert Unseen(sorted, Ids(seen)) == StableSort(late, Earlier());
    SortConcat(seen, late);
    TextConcat(StableSort(seen, Earlier()), StableSort(late, Earlier()));
    SortMembers(late, Earlier());
    SameIds(StableSort(late, Earlier()), late);
    IdsConcat(seen, late);
  }

  // ------------------------------------------------------------- every run

  function RenderAll(v: View, session: string, evidences: seq<seq<Record>>): View {
    if evidences == [] then v
    else Rendered(RenderAll(v, session, evidences[..|evidences| - 1]), Some(session), evidences[|evidences| - 1])
  }

  function SeenAll(evidences: seq<seq<Record>>): seq<Record> {
    if evidences == [] then [] else SeenAfter(SeenAll(evidences[..|evidences| - 1]), evidences[|evidences| - 1])
  }

  /** Every list has distinct ids, and what it adds is never older than what was seen before. */
  ghost predicate ArrivesInOrder(evidences: seq<seq<Record>>) {
    evidences != [] ==>
      var before, last := SeenAll(evidences[..|evidences| - 1]), evidences[|evidences| - 1];
      && ArrivesInOrder(evidences[..|evidences| - 1])
      && UniqueIds(Outputs(last))
      && NotEarlier(before, Filter(Outputs(last), Not(ShownIn(Ids(before)))))
  }

  /** Main result: over any run of renders of one session, starting from a screen that shows
      anything else, the screen is the full redraw, in order of time, of all records seen; that is,
      what one render of all of them on a reset screen gives. */
  lemma {:induction false} RunIsRedraw(v: View, session: string, evidences: seq<seq<Record>>)
    requires v.session != Some(session) && evidences != [] && ArrivesInOrder(evidences)
    ensures RenderAll(v, session, evidences) == FullRedraw(session, SeenAll(evidences))
         == Redraw(session, SeenAll(evidences))
  {
    hide Rendered, FullRedraw, NotEarlier, UniqueIds, SeenAfter;
    var front, last := evidences[..|evidences| - 1], evidences[|evidences| - 1];
    if front == [] {
      RedrawIsRender(session, last, v);
      FirstSeen(last);
    } else {
      RunIsRedraw(v, session, front);
      RenderIsRedraw(session, SeenAll(front), last);
    }
    SeenOutputs(evidences);
    RedrawIsRender(session, SeenAll(evidences), NEW_VIEW);
  }

  /** What has been seen are output records with distinct ids. */
  lemma {:induction false} SeenOutputs(evidences: seq<seq<Record>>)
    requires ArrivesInOrder(evidences)
    ensures Outputs(SeenAll(evidences)) == SeenAll(evidences) && UniqueIds(SeenAll(evidences))
  {
    hide NotEarlier;
    if evidences != [] {
      var before, last := SeenAll(evidences[..|evidences| - 1]), evidences[|evidences| - 1];
      SeenOutputs(evidences[..|evidences| - 1]);
      var late := Filter(Outputs(last), Not(ShownIn(Ids(before))));
      FilterMembers(last, IsOutput());
      FilterMembers(Outputs(last), Not(ShownIn(Ids(before))));
      FilterMembers(before, IsOutput());
      FilterAll(late, IsOutput());
      FilterConcat(before, late, IsOutput());
      FilterUnique(Outputs(last), Not(ShownIn(Ids(before))));
      UniqueConcat(before, late);
    }
  }

  lemma {:induction false} FilterUnique(records: seq<Record>, p: Record -> bool)
    requires UniqueIds(records)
    ensures UniqueIds(Filter(records, p))
  {
    if records != [] {
      FilterUnique(records[1..], p);
      FilterMembers(records[1..], p);
      assert forall r :: r in records[1..] ==> r.id != records[0].id;
    }
  }

  lemma {:induction false} UniqueConcat(a: seq<Record>, b: seq<Record>)
    requires UniqueIds(a) && UniqueIds(b) && forall r :: r in b ==> r.id !in Ids(a)
    ensures UniqueIds(a + b)
  {
    var all := a + b;
    forall i, j | 0 <= i < j < |all| ensures all[i].id != all[j].id {
      if i < |a| <= j {
        assert a[i] in a && b[j - |a|] in b && a[i].id in Ids(a);
      }
    }
  }

  /** What the renders of one session write, one after the other. */
  function WrittenAll(evidences: seq<seq<Record>>): seq<Record> {
    if evidences == [] then []
    else
      var front, last := evidences[..|evidences| - 1], evidences[|evidences| - 1];
      WrittenAll(front) + StableSort(Filter(Outputs(last), Not(ShownIn(Ids(SeenAll(front))))), Earlier())
  }

  /** The output records of every list have distinct ids. */
  ghost predicate AllUnique(evidences: seq<seq<Record>>) {
    evidences != [] ==> AllUnique(evidences[..|evidences| - 1]) && UniqueIds(Outputs(evidences[|evidences| - 1]))
  }

  lemma {:induction false} RenderWrites(session: string, seen: seq<Record>, text: string, evidence: seq<Record>)
    requires UniqueIds(Outputs(evidence))
    ensures var late := Filter(Outputs(evidence), Not(ShownIn(Ids(seen))));
            Rendered(View(Some(session), Ids(seen), text), Some(session), evidence)
            == View(Some(session), Ids(SeenAfter(seen, evidence)), text + Text(StableSort(late, Earlier())))
  {
    hide Unseen, Text, UniqueIds;
    var late := Filter(Outputs(evidence), Not(ShownIn(Ids(seen))));
    var sorted := InOrder(evidence);
    UniqueSorted(Outputs(evidence));
    UnseenIsFilter(sorted, Ids(seen));
    FilterSort(Outputs(evidence), Not(ShownIn(Ids(seen))));
    SortMembers(late, Earlier());
    SameIds(StableSort(late, Earlier()), late);
    IdsConcat(seen, late);
  }

  /** In every run of renders of a session, in whatever order records arrive, the screen reads the
      records of `WrittenAll`. */
  lemma {:induction false} RunWrites(v: View, session: string, evidences: seq<seq<Record>>)
    requires v.session != Some(session) && evidences != [] && AllUnique(evidences)
    ensures RenderAll(v, session, evidences)
         == View(Some(session), Ids(SeenAll(evidences)), Text(WrittenAll(evidences)))
  {
    hide Rendered, UniqueIds, SeenAfter, Text, StableSort;
    var front, last := evidences[..|evidences| - 1], evidences[|evidences| - 1];
    var late := Filter(Outputs(last), Not(ShownIn(Ids(SeenAll(front)))));
    RenderWrites(session, SeenAll(front), Text(WrittenAll(front)), last);
    TextConcat(WrittenAll(front), StableSort(late, Earlier()));
    if front == [] {
      FreshScreen(v, session, last);
    } else {
      RunWrites(v, session, front);
    }
  }

  /** A screen that shows something else is reset first. */
  lemma {:induction false} FreshScreen(v: View, session: string, evidence: seq<Record>)
    requires v.session != Some(session)
    ensures Rendered(v, Some(session), evidence) == Rendered(View(Some(session), {}, ""), Some(session), evidence)
    ensures Ids([]) == {} && Text([]) == ""
  {
    hide Show;
    NothingShown();
  }

  lemma {:induction false} SameMembers(evidences: seq<seq<Record>>)
    ensures forall r :: r in WrittenAll(evidences) <==> r in SeenAll(evidences)
    ensures |WrittenAll(evidences)| == |SeenAll(evidences)|
  {
    if evidences != [] {
      var front, last := evidences[..|evidences| - 1], evidences[|evidences| - 1];
      SameMembers(front);
      SortMembers(Filter(Outputs(last), Not(ShownIn(Ids(SeenAll(front))))), Earlier());
    }
  }

  /** Main result, exactly: what a run writes is in order of time, as a full redraw would have it, if
      and only if no record arrives after a later one has been shown. */
  lemma {:induction false} WrittenInOrder(evidences: seq<seq<Record>>)
    requires AllUnique(evidences)
    ensures WrittenAll(evidences) == StableSort(SeenAll(evidences), Earlier()) <==> ArrivesInOrder(evidences)
  {
    hide StableSort, UniqueIds, NotEarlier, Outputs;
    if evidences == [] {
      SortNothing();
    } else {
      var front, last := evidences[..|evidences| - 1], evidences[|evidences| - 1];
      var before := SeenAll(front);
      var late := Filter(Outputs(last), Not(ShownIn(Ids(before))));
      WrittenInOrder(front);
      assert SeenAll(evidences) == before + late;
      if NotEarlier(before, late) {
        SortConcat(before, late);
        SameMembers(front);
        SamePrefix(WrittenAll(front), StableSort(before, Earlier()), StableSort(late, Earlier()));
      } else if WrittenAll(evidences) == StableSort(before + late, Earlier()) {
        EarlierIsPreorder();
        SortSorts(before + late, Earlier());
        SortedConcat(WrittenAll(front), StableSort(late, Earlier()));
        SameMembers(front);
        SortMembers(late, Earlier());
        NotEarlierMembers(WrittenAll(front), StableSort(late, Earlier()), before, late);
      }
    }
  }

  lemma {:induction false} SortNothing()
    ensures StableSort<Record>([], Earlier()) == []
  {
  }

  lemma {:induction false} SamePrefix(a: seq<Record>, b: seq<Record>, rest: seq<Record>)
    requires |a| == |b|
    ensures a + rest == b + rest <==> a == b
  {
    if a + rest == b + rest {
      assert (a + rest)[..|a|] == a && (b + rest)[..|b|] == b;
    }
  }

  lemma {:induction false} NotEarlierMembers(a: seq<Record>, b: seq<Record>, c: seq<Record>, d: seq<Record>)
    requires NotEarlier(a, b) && (forall r :: r in a <==> r in c) && (forall r :: r in b <==> r in d)
    ensures NotEarlier(c, d)
  {
  }

  lemma {:induction false} FirstSeen(evidence: seq<Record>)
    ensures SeenAfter([], evidence) == Outputs(evidence)
  {
    FilterAll(Outputs(evidence), Not(ShownIn(Ids([]))));
  }

  lemma {:induction false} SortPair(a: Record, b: Record)
    requires b.at < a.at
    ensures StableSort([a, b], Earlier()) == [b, a] && StableSort([a], Earlier()) == [a]
  {
    assert [a, b][1..] == [b] && [b][1..] == [] && [a][1..] == [];
    assert StableSort([b], Earlier()) == [b];
    assert Insert(a, [b], Earlier()) == [b] + Insert(a, [], Earlier());
  }

  lemma {:induction false} TextPair(a: Record, b: Record)
    ensures Text([a]) == OutputOf(a) && Text([a, b]) == OutputOf(a) + OutputOf(b)
  {
    assert [a, b] == [a] + [b] && [a][1..] == [];
    assert Text([a]) == OutputOf(a) + Text([]) && Text([b]) == OutputOf(b) + Text([]) by {
      assert [b][1..] == [];
    }
    TextConcat([a], [b]);
  }

  /** A record that arrives after a later one has been shown is written after it all the same, so
      then the screen is not the redraw. */
  lemma {:induction false} LateArrival(session: string, a: Record, b: Record)
    requires b.at < a.at && a.id != b.id && a.kind == b.kind == "terminal_output_chunk"
    ensures Rendered(FullRedraw(session, [a]), Some(session), [a, b]).text == OutputOf(a) + OutputOf(b)
    ensures FullRedraw(session, [a, b]).text == OutputOf(b) + OutputOf(a)
  {
    hide Text, StableSort;
    SortPair(a, b);
    TextPair(a, b);
    TextPair(b, a);
    assert Ids([a]) == {a.id};
    FilterAll([a, b], IsOutput());
    assert [b, a][1..] == [a] && [a][1..] == [];
    assert Unseen([a], {a.id}) == [];
    assert Unseen([a], {a.id} + {b.id}) == [];
    assert Unseen([b, a], {a.id}) == [b];
  }

  // ------------------------------------------------------------- no session

  /** Views that only come from renders: without a session they show nothing or the placeholder. */
  predicate Reachable(v: View) {
    v.session.None? ==> v == NEW_VIEW || v == View(None, {"empty"}, PLACEHOLDER)
  }

  /** A render without a session leaves the placeholder on the screen exactly once, and keeps the
      view reachable; `FramesReachable` takes this to every run. */
  lemma {:induction false} PlaceholderOnce(v: View, session: Option<string>, evidence: seq<Record>)
    requires Reachable(v)
    ensures Reachable(Rendered(v, session, evidence))
    ensures session.None? ==>
              Rendered(v, session, evidence).text
              == "Managed terminal output appears here after you attach a managed PTY.\r\n"
  {
  }

  datatype Frame = Frame(session: Option<string>, evidence: seq<Record>)

  function RenderFrames(v: View, frames: seq<Frame>): View
    decreases |frames|
  {
    if frames == [] then v else RenderFrames(Rendered(v, frames[0].session, frames[0].evidence), frames[1..])
  }

  lemma {:induction false} FramesReachable(v: View, frames: seq<Frame>)
    requires Reachable(v)
    ensures Reachable(RenderFrames(v, frames))
    decreases |frames|
  {
    hide Rendered, Reachable;
    if frames != [] {
      PlaceholderOnce(v, frames[0].session, frames[0].evidence);
      FramesReachable(Rendered(v, frames[0].session, frames[0].evidence), frames[1..]);
    }
  }

  // ------------------------------------------------------------- what a run writes

  /** The placeholder as a record of its own. */
  const EMPTY := Record("empty", "", "terminal_output_chunk", 0, Some(PLACEHOLDER))

  /** The records written since the last reset, in order, after one more render. */
  function LogAfter(v: View, log: seq<Record>, f: Frame): seq<Record> {
    if f.session.None? then
      if v.session.Some? || v.shown == {} then [EMPTY] else log
    else if v.session == f.session then log + Unseen(InOrder(f.evidence), v.shown)
    else Unseen(InOrder(f.evidence), {})
  }

  function LogOf(v: View, log: seq<Record>, frames: seq<Frame>): seq<Record>
    decreases |frames|
  {
    if frames == [] then log
    else LogOf(Rendered(v, frames[0].session, frames[0].evidence), LogAfter(v, log, frames[0]), frames[1..])
  }

  /** The screen is the text of the log, which has no id twice and just the shown ids. */
  ghost predicate Logs(v: View, log: seq<Record>) {
    UniqueIds(log) && Ids(log) == v.shown && Text(log) == v.text
  }

  lemma {:induction false} EmptyLog()
    ensures UniqueIds([EMPTY]) && Ids([EMPTY]) == {"empty"} && Text([EMPTY]) == PLACEHOLDER
  {
    TextPair(EMPTY, EMPTY);
    assert Ids([EMPTY]) == {EMPTY.id};
  }

  lemma {:induction false} ShowLogs(v: View, log: seq<Record>, records: seq<Record>)
    requires Logs(v, log)
    ensures Logs(Show(v, records), log + Unseen(records, v.shown))
  {
    hide Unseen, Text;
    var unseen := Unseen(records, v.shown);
    WrittenOnce(records, v.shown);
    TextConcat(log, unseen);
    IdsConcat(log, unseen);
    UniqueConcat(log, unseen);
  }

  lemma {:induction false} NothingLogged(session: Option<string>)
    ensures Logs(View(session, {}, ""), [])
  {
  }

  lemma {:induction false} FrameLogs(v: View, log: seq<Record>, f: Frame)
    requires Logs(v, log)
    ensures Logs(Rendered(v, f.session, f.evidence), LogAfter(v, log, f))
  {
    if f.session.None? {
      EmptyLog();
      if v.session.None? && v.shown == {} {
        NoIds(log);
      }
    } else {
      hide Logs, Unseen, Show, InOrder;
      NothingLogged(f.session);
      var records := InOrder(f.evidence);
      if v.session == f.session {
        ShowLogs(v, log, records);
      } else {
        ShowLogs(View(f.session, {}, ""), [], records);
        assert [] + Unseen(records, {}) == Unseen(records, {});
      }
    }
  }

  lemma {:induction false} NoIds(log: seq<Record>)
    ensures Ids(log) == {} ==> log == []
  {
    assert log != [] ==> log[0].id in Ids(log);
  }

  /** Main result on every run: whatever sessions and evidence are rendered, the screen reads what was
      written since the last reset, no id twice and every shown id once. */
  lemma {:induction false} RunWritesOnce(v: View, log: seq<Record>, frames: seq<Frame>)
    requires Logs(v, log)
    ensures Logs(RenderFrames(v, frames), LogOf(v, log, frames))
    decreases |frames|
  {
    hide Rendered, LogAfter, Logs;
    if frames != [] {
      FrameLogs(v, log, frames[0]);
      RunWritesOnce(Rendered(v, frames[0].session, frames[0].evidence), LogAfter(v, log, frames[0]), frames[1..]);
    }
  }

  // ------------------------------------------------------------- which records

  /** Main result on the choice of records: with a session, of all records of the state just those of
      the session and of kind `terminal_output_chunk` are shown, in order of time. */
  lemma {:induction false} ShownRecords(records: seq<Record>, session: string)
    ensures var chosen := InOrder(EvidenceFor(records, Some(session)));
            && (forall r :: r in chosen <==>
                  r in records && r.sessionId == session && r.kind == "terminal_output_chunk")
            && (forall i, j :: 0 <= i < j < |chosen| ==> chosen[i].at <= chosen[j].at)
  {
    var own := Filter(records, OfSession(session));
    FilterMembers(records, OfSession(session));
    FilterMembers(own, IsOutput());
    EarlierIsPreorder();
    SortSorts(Filter(own, IsOutput()), Earlier());
    SortMembers(Filter(own, IsOutput()), Earlier());
    hide Filter, StableSort;
    var chosen := InOrder(EvidenceFor(records, Some(session)));
    forall i, j | 0 <= i < j < |chosen| ensures chosen[i].at <= chosen[j].at {
      assert Earlier()(chosen[i], chosen[j]);
    }
  }

  /** The session shown is the first one of the state, whatever follows it. */
  lemma {:induction false} FirstSessionShown(v: View, first: string, others: seq<string>, records: seq<Record>)
    ensures Rendered(v, LatestSession([first] + others), EvidenceFor(records, LatestSession([first] + others))).session
         == Some(first)
    ensures Rendered(v, LatestSession([]), EvidenceFor(records, LatestSession([]))).session == None
  {
    hide Show, EvidenceFor, InOrder;
    KeepsSession(v, Some(first), EvidenceFor(records, Some(first)));
  }

  lemma {:induction false} KeepsSession(v: View, session: Option<string>, evidence: seq<Record>)
    requires session.Some?
    ensures Rendered(v, session, evidence).session == session
  {
    hide Unseen, Text, Ids, InOrder;
  }

  /** All of them reach the screen: after a render every such id is shown, and what was written is the
      output of records of the session, in full. */
  lemma {:induction false} AllShown(v: View, records: seq<Record>, session: string, r: Record)
    requires r in records && r.sessionId == session && r.kind == "terminal_output_chunk"
    ensures r.id in Rendered(v, Some(session), EvidenceFor(records, Some(session))).shown
  {
    var chosen := InOrder(EvidenceFor(records, Some(session)));
    ShownRecords(records, session);
    assert r in chosen && r.id in Ids(chosen);
    WrittenOnce(chosen, if v.session == Some(session) then v.shown else {});
    hide Unseen, InOrder, EvidenceFor;
  }

  /** A single new record of the session puts its output on a fresh screen; a missing output is the
      empty text, and without a session the first eight records are looked at. */
  lemma {:induction false} SingleRecord(r: Record)
    requires r.kind == "terminal_output_chunk"
    ensures Rendered(NEW_VIEW, Some(r.sessionId), EvidenceFor([r], Some(r.sessionId))).text
         == match r.output
            case Some(text) => text
            case None => ""
    ensures forall records: seq<Record> ::
              EvidenceFor(records, None) == if |records| <= 8 then records else records[..8]
  {
    assert [r][1..] == [];
    assert Filter([], OfSession(r.sessionId)) == [];
    assert Filter([r], OfSession(r.sessionId)) == [r];
    assert Filter([], IsOutput()) == [];
    assert Filter([r], IsOutput()) == [r];
    assert StableSort([], Earlier()) == [];
    assert StableSort([r], Earlier()) == [r];
    assert Unseen([], {} + {r.id}) == [];
    assert Unseen([r], {}) == [r];
    TextPair(r, r);
  }
}
