/** Browser delivery of notification events and the read marks of completed results
    (apps/web/src/components/layout/notification-center.tsx). Storage is modelled as working; the
    notifications that the browser shows are the list `announced`, one entry per notification. */
module Notifications {
  import opened Sequences

  const CAP := 500

  function Tail<T>(s: seq<T>, n: nat): (r: seq<T>)
    ensures |r| == if |s| < n then |s| else n
  {
    if |s| <= n then s else s[|s| - n..]
  }

  /** `[...new Set(values)].slice(-500)` */
  function Stored(values: seq<string>): seq<string> {
    Tail(Dedup(values), CAP)
  }

  function NotIn(ids: seq<string>): string -> bool {
    (id: string) => id !in ids
  }

  // ------------------------------------------------------------- delivery as a function

  datatype Delivery = Delivery(enabled: bool, baseline: Option<seq<string>>, announced: seq<seq<string>>)

  datatype Event = Snapshot(ids: seq<string>) | Enable(current: seq<string>) | Disable

  /** `Snapshot` is the delivery effect run on the event ids of a console state; `Enable` is the
      user turning delivery on, with the ids of that moment. */
  function Step(d: Delivery, e: Event): Delivery {
    match e
    case Snapshot(ids) =>
      if !d.enabled then d
      else if d.baseline.None? then d.(baseline := Some(Stored(ids)))
      else
        var newIds := Filter(ids, NotIn(d.baseline.value));
        d.(baseline := Some(Stored(ids)), announced := if newIds == [] then d.announced else d.announced + [newIds])
    case Enable(current) => d.(enabled := true, baseline := Some(Stored(current)))
    case Disable => d.(enabled := false)
  }

  // ------------------------------------------------------------- delivery as code

  class NotificationDelivery {
    var deliveryEnabled: bool
    var baselineKey: Option<seq<string>>
    ghost var announced: seq<seq<string>>

    ghost function Abs(): Delivery
      reads this
    {
      Delivery(deliveryEnabled, baselineKey, announced)
    }

    constructor (enabled: bool, stored: Option<seq<string>>)
      ensures Abs() == Delivery(enabled, stored, [])
    {
      deliveryEnabled, baselineKey, announced := enabled, stored, [];
    }

    method WriteBaseline(values: seq<string>)
      modifies `baselineKey
      ensures baselineKey == Some(Stored(values))
    {
      baselineKey := Some(Stored(values));
    }

    /** The delivery effect; what it returns is what the notification counts. */
    method Deliver(notificationEventIds: seq<string>) returns (newIds: seq<string>)
      modifies this
      ensures Abs() == Step(old(Abs()), Snapshot(notificationEventIds))
      ensures newIds
           == if old(deliveryEnabled) && old(baselineKey).Some?
               then Filter(notificationEventIds, NotIn(old(baselineKey).value)) else []
    {
      newIds := [];
      if !deliveryEnabled {
        return;
      }
      var prior := baselineKey;
      if prior.None? {
        WriteBaseline(notificationEventIds);
        return;
      }
      newIds := Filter(notificationEventIds, NotIn(prior.value));
      WriteBaseline(notificationEventIds);
      if newIds == [] {
        return;
      }
      announced := announced + [newIds];
    }

    method EnableBrowserNotifications(notificationEventIds: seq<string>)
      modifies this
      ensures Abs() == Step(old(Abs()), Enable(notificationEventIds))
    {
      WriteBaseline(notificationEventIds);
      deliveryEnabled := true;
    }

    method DisableBrowserNotifications()
      modifies this
      ensures Abs() == Step(old(Abs()), Disable)
    {
      deliveryEnabled := false;
    }
  }

  // ------------------------------------------------------------- what is announced

  predicate Fits(ids: seq<string>) {
    |Dedup(ids)| <= CAP
  }

  lemma {:induction false} StoredAll(ids: seq<string>, id: string)
    requires Fits(ids)
    ensures id in Stored(ids) <==> id in ids
  {
  }

  /** The stored baseline forgets an id exactly when more distinct ids than the cap are given. */
  lemma {:induction false} StoredForgets(ids: seq<string>)
    ensures (forall id :: id in ids ==> id in Stored(ids)) <==> Fits(ids)
  {
    var d := Dedup(ids);
    if !Fits(ids) {
      assert d[0] in ids;
      var tail := d[|d| - CAP..];
      forall k | 0 <= k < |tail| ensures tail[k] != d[0] {
        assert tail[k] == d[|d| - CAP + k];
      }
      assert d[0] !in tail;
    } else {
      forall id | id in ids ensures id in Stored(ids) {
        StoredAll(ids, id);
      }
    }
  }

  /** Which ids the stored baseline keeps: those that at most 499 distinct ids follow. */
  lemma {:induction false} StoredKeepsLast(ids: seq<string>, k: nat)
    requires k < |Dedup(ids)|
    ensures Dedup(ids)[k] in Stored(ids) <==> |Dedup(ids)| - k <= 500
  {
    var d := Dedup(ids);
    if |d| > CAP {
      var tail := d[|d| - CAP..];
      if |d| - k <= CAP {
        assert tail[k - (|d| - CAP)] == d[k];
      } else {
        forall i | 0 <= i < |tail| ensures tail[i] != d[k] {
          assert tail[i] == d[|d| - CAP + i];
        }
      }
    }
  }

  /** What a snapshot announces when the ids `before` were stored last. */
  function AnnouncedAfter(s: Delivery, before: seq<string>, ids: seq<string>): seq<seq<string>> {
    var newIds := Filter(ids, NotIn(before));
    if newIds == [] then s.announced else s.announced + [newIds]
  }

  /** Main result on one step: after a snapshot that fits the cap, the first one included, the next
      one announces exactly its ids that the snapshot did not have. */
  lemma {:induction false} AnnouncesTheNew(d: Delivery, before: seq<string>, ids: seq<string>)
    requires d.enabled && Fits(before)
    ensures var s := Step(d, Snapshot(before));
            Step(s, Snapshot(ids)).announced == AnnouncedAfter(s, before, ids)
  {
    StoredIsAll(before, ids);
  }

  /** Turning delivery on takes the ids of that moment as known: the next snapshot announces exactly
      its ids beyond them. While delivery is off nothing is announced or stored. */
  lemma {:induction false} EnableTakesBaseline(d: Delivery, current: seq<string>, ids: seq<string>)
    requires Fits(current)
    ensures var s := Step(d, Enable(current));
            s.announced == d.announced && Step(s, Snapshot(ids)).announced == AnnouncedAfter(s, current, ids)
    ensures Step(Step(d, Disable), Snapshot(ids)) == Step(d, Disable)
  {
    StoredIsAll(current, ids);
  }

  lemma {:induction false} StoredIsAll(before: seq<string>, ids: seq<string>)
    requires Fits(before)
    ensures Filter(ids, NotIn(Stored(before))) == Filter(ids, NotIn(before))
  {
    forall id | id in ids ensures NotIn(Stored(before))(id) == NotIn(before)(id) {
      StoredAll(before, id);
    }
    FilterCong(ids, NotIn(Stored(before)), NotIn(before));
  }

  /** Rendering the same ids again is silent if and only if they fit the cap. */
  lemma {:induction false} RepeatIsSilent(d: Delivery, ids: seq<string>)
    requires d.enabled
    ensures var s := Step(d, Snapshot(ids));
            Step(s, Snapshot(ids)).announced == s.announced <==> Fits(ids)
  {
    var s := Step(d, Snapshot(ids));
    StoredForgets(ids);
    FilterEmpty(ids, NotIn(Stored(ids)));
    var newIds := Filter(ids, NotIn(Stored(ids)));
    assert |s.announced + [newIds]| == |s.announced| + 1;
  }

  function Run(d: Delivery, events: seq<Event>): Delivery {
    if events == [] then d else Step(Run(d, events[..|events| - 1]), events[|events| - 1])
  }

  /** How many notifications of a run name an id. */
  function Times(announced: seq<seq<string>>, id: string): nat {
    if announced == [] then 0
    else Times(announced[..|announced| - 1], id) + (if id in announced[|announced| - 1] then 1 else 0)
  }

  /** Every list of ids in the run fits the cap and has `id`; delivery may go on and off. */
  predicate AlwaysWith(events: seq<Event>, id: string) {
    forall e :: e in events ==>
      match e
      case Snapshot(ids) => id in ids && Fits(ids)
      case Enable(current) => id in current && Fits(current)
      case Disable => true
  }

  ghost predicate Knows(d: Delivery, id: string) {
    d.baseline.Some? && id in d.baseline.value
  }

  lemma {:induction false} TimesSnoc(announced: seq<seq<string>>, ids: seq<string>, id: string)
    ensures Times(announced + [ids], id) == Times(announced, id) + (if id in ids then 1 else 0)
  {
    assert (announced + [ids])[..|announced|] == announced;
  }

  /** In every run of snapshots and switches of delivery an id that is always present is announced
      at most once, never again once the baseline knows it, and the baseline does not forget it. */
  lemma {:induction false} PresentIdAnnouncedOnce(d: Delivery, events: seq<Event>, id: string)
    requires AlwaysWith(events, id)
    ensures var r := Run(d, events);
            && Times(d.announced, id) <= Times(r.announced, id) <= Times(d.announced, id) + 1
            && (Knows(d, id) ==> Knows(r, id) && Times(r.announced, id) == Times(d.announced, id))
            && (Times(r.announced, id) > Times(d.announced, id) ==> Knows(r, id))
  {
    hide Stored, Fits;
    if events != [] {
      var front, last := events[..|events| - 1], events[|events| - 1];
      assert forall e :: e in front ==> e in events;
      assert last in events;
      PresentIdAnnouncedOnce(d, front, id);
      StepOnce(Run(d, front), last, id);
    }
  }

  lemma {:induction false} StepOnce(m: Delivery, e: Event, id: string)
    requires AlwaysWith([e], id)
    ensures var r := Step(m, e);
            && Times(r.announced, id)
              == Times(m.announced, id) + (if r.announced != m.announced && !Knows(m, id) then 1 else 0)
            && (Knows(m, id) ==> Knows(r, id))
            && (Times(r.announced, id) > Times(m.announced, id) ==> Knows(r, id))
  {
    hide Stored, Fits;
    assert e in [e];
    match e
    case Snapshot(ids) =>
      StoredAll(ids, id);
      if m.enabled && m.baseline.Some? {
        var newIds := Filter(ids, NotIn(m.baseline.value));
        FilterMembers(ids, NotIn(m.baseline.value));
        TimesSnoc(m.announced, newIds, id);
      }
    case Enable(current) =>
      StoredAll(current, id);
    case Disable =>
  }

  // ------------------------------------------------------------- read marks

  /** `seenCompletionIds` in insertion order, and its stored copy. */
  datatype Marks = Marks(seen: Option<seq<string>>, stored: Option<seq<string>>)

  /** The first effect run: the stored ids, or the present completions as a first baseline. */
  function Loaded(m: Marks, completions: seq<string>): Marks {
    if m.seen.Some? then m
    else if m.stored.Some? then m.(seen := Some(Dedup(m.stored.value)))
    else Marks(Some(Dedup(completions)), Some(Stored(completions)))
  }

  function Unread(m: Marks, completions: seq<string>): seq<string> {
    if m.seen.Some? then Filter(completions, NotIn(m.seen.value)) else []
  }

  function SeenOf(m: Marks): seq<string> {
    if m.seen.Some? then m.seen.value else []
  }

  /** `markResultsRead` */
  function MarkedRead(m: Marks, completions: seq<string>): Marks {
    var next := Dedup(SeenOf(m) + completions);
    Marks(Some(next), Some(Stored(next)))
  }

  /** A new page starts from storage alone. */
  function Reloaded(m: Marks): Marks {
    m.(seen := None)
  }

  class CompletionMarks {
    var seenCompletionIds: Option<seq<string>>
    var seenKey: Option<seq<string>>

    function Abs(): Marks
      reads this
    {
      Marks(seenCompletionIds, seenKey)
    }

    constructor (stored: Option<seq<string>>)
      ensures Abs() == Marks(None, stored)
    {
      seenCompletionIds, seenKey := None, stored;
    }

    method Load(completions: seq<string>)
      modifies this
      ensures Abs() == Loaded(old(Abs()), completions)
    {
      if seenCompletionIds.Some? {
        return;
      }
      var stored := seenKey;
      var baseline := if stored.Some? then stored.value else completions;
      if stored.None? {
        seenKey := Some(Stored(baseline));
      }
      seenCompletionIds := Some(Dedup(baseline));
    }

    method MarkResultsRead(completions: seq<string>)
      modifies this
      ensures Abs() == MarkedRead(old(Abs()), completions)
    {
      var next := Dedup((if seenCompletionIds.Some? then seenCompletionIds.value else []) + completions);
      seenKey := Some(Stored(next));
      seenCompletionIds := Some(next);
    }
  }

  lemma {:induction false} NothingUnread(m: Marks, completions: seq<string>)
    requires m.seen.Some?
    ensures Unread(m, completions) == [] <==> forall id :: id in completions ==> id in m.seen.value
  {
    FilterEmpty(completions, NotIn(m.seen.value));
  }

  /** After marking, none of the results is unread. */
  lemma {:induction false} MarkingReads(m: Marks, completions: seq<string>)
    ensures Unread(MarkedRead(m, completions), completions) == []
  {
    NothingUnread(MarkedRead(m, completions), completions);
  }

  /** A reload keeps every mark, of this model or older, if and only if at most 500 ids were seen. */
  lemma {:induction false} ReloadKeepsMarks(m: Marks, completions: seq<string>)
    ensures var marked := MarkedRead(m, completions);
            var reloaded := Loaded(Reloaded(marked), completions);
            (forall id :: id in marked.seen.value ==> id in reloaded.seen.value) <==> Fits(SeenOf(m) + completions)
  {
    var next := Dedup(SeenOf(m) + completions);
    DedupDistinct(next);
    StoredForgets(next);
  }

  /** In particular, with at most 500 ids seen nothing is unread after a reload. */
  lemma {:induction false} ReloadReads(m: Marks, completions: seq<string>)
    requires Fits(SeenOf(m) + completions)
    ensures Unread(Loaded(Reloaded(MarkedRead(m, completions)), completions), completions) == []
  {
    ReloadKeepsMarks(m, completions);
    NothingUnread(Loaded(Reloaded(MarkedRead(m, completions)), completions), completions);
  }

  /** What the first runs do: a first snapshot is stored and not announced; a page without stored marks
      takes the present completions as read, one with stored marks takes those. */
  lemma {:induction false} FirstRuns(d: Delivery, ids: seq<string>, stored: seq<string>, completions: seq<string>)
    ensures d.enabled && d.baseline.None? ==>
              Step(d, Snapshot(ids)).announced == d.announced && Step(d, Snapshot(ids)).baseline == Some(Stored(ids))
    ensures Unread(Loaded(Marks(None, None), completions), completions) == []
    ensures var loaded := Loaded(Marks(None, Some(stored)), completions);
            loaded.seen.Some? && forall id :: id in loaded.seen.value <==> id in stored
    ensures forall id :: id in Unread(Loaded(Marks(None, Some(stored)), completions), completions) <==>
              id in completions && id !in stored
  {
    NothingUnread(Loaded(Marks(None, None), completions), completions);
    FilterMembers(completions, NotIn(Dedup(stored)));
  }

  /** The cap is 500 distinct ids. */
  lemma {:induction false} FitsCap(ids: seq<string>)
    ensures Fits(ids) <==> |Dedup(ids)| <= 500
  {
  }
}
