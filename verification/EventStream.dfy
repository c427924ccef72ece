/** The event-stream loop with its retries, resume cursor and teardown
    (apps/web/src/app/use-control-plane-events.ts), and the change-only connection flag it drives
    (apps/web/src/data/control-plane-stream.ts). The transport itself is the environment: it
    delivers messages while a connection is live, ends it at any time, and delivers nothing after
    an abort. */
module EventStream {
  import opened Sequences

  // ------------------------------------------------------------- the flag

  /** The flag with what each subscribed listener has been told since it subscribed. */
  datatype Flag = Flag(connected: bool, heard: map<nat, seq<bool>>)

  function SetFlag(f: Flag, value: bool): Flag {
    if f.connected == value then f
    else Flag(value, map l | l in f.heard :: f.heard[l] + [value])
  }

  function Subscribed(f: Flag, listener: nat): Flag {
    if listener in f.heard then f else f.(heard := f.heard[listener := []])
  }

  function Unsubscribed(f: Flag, listener: nat): Flag {
    f.(heard := f.heard - {listener})
  }

  /** A listener only hears changes, so what it hears alternates and ends in the current value. */
  ghost predicate HearsChanges(f: Flag) {
    forall l :: l in f.heard ==>
      && (forall i :: 0 < i < |f.heard[l]| ==> f.heard[l][i] != f.heard[l][i - 1])
      && (f.heard[l] != [] ==> f.heard[l][|f.heard[l]| - 1] == f.connected)
  }

  datatype FlagCall = Set(value: bool) | Subscribe(listener: nat) | Unsubscribe(listener: nat)

  function FlagStep(f: Flag, c: FlagCall): Flag {
    match c
    case Set(value) => SetFlag(f, value)
    case Subscribe(listener) => Subscribed(f, listener)
    case Unsubscribe(listener) => Unsubscribed(f, listener)
  }

  function FlagRun(f: Flag, calls: seq<FlagCall>): Flag
    decreases |calls|
  {
    if calls == [] then f else FlagRun(FlagStep(f, calls[0]), calls[1..])
  }

  lemma {:induction false} ListenersHearChanges(f: Flag, calls: seq<FlagCall>)
    requires HearsChanges(f)
    ensures HearsChanges(FlagRun(f, calls))
    decreases |calls|
  {
    if calls != [] {
      assert HearsChanges(FlagStep(f, calls[0]));
      ListenersHearChanges(FlagStep(f, calls[0]), calls[1..]);
    }
  }

  class StreamFlag {
    var connected: bool
    var listeners: set<nat>
    var heard: map<nat, seq<bool>>

    ghost predicate Valid()
      reads this
    {
      heard.Keys == listeners
    }

    function Abs(): Flag
      reads this
    {
      Flag(connected, heard)
    }

    constructor ()
      ensures Valid() && Abs() == Flag(false, map[])
    {
      connected, listeners, heard := false, {}, map[];
    }

    method SetConnected(value: bool)
      requires Valid()
      modifies this
      ensures Valid() && Abs() == SetFlag(old(Abs()), value)
    {
      if connected == value {
        return;
      }
      connected := value;
      ghost var before := heard;
      var left := listeners;
      while left != {}
        invariant Valid() && left <= listeners && listeners == old(listeners) && connected == value
        invariant forall l :: l in listeners ==> heard[l] == if l in left then before[l] else before[l] + [value]
        decreases |left|
      {
        var listener :| listener in left;
        heard := heard[listener := heard[listener] + [value]];
        left := left - {listener};
      }
      assert heard == map l | l in before :: before[l] + [value];
    }

    method Subscribe(listener: nat)
      requires Valid()
      modifies this
      ensures Valid() && Abs() == Subscribed(old(Abs()), listener)
    {
      if listener !in listeners {
        heard := heard[listener := []];
      }
      listeners := listeners + {listener};
    }

    method Unsubscribe(listener: nat)
      requires Valid()
      modifies this
      ensures Valid() && Abs() == Unsubscribed(old(Abs()), listener)
    {
      listeners := listeners - {listener};
      heard := heard - {listener};
    }
  }

  // ------------------------------------------------------------- the loop as a function

  function Pow2(n: nat): nat {
    if n == 0 then 1 else 2 * Pow2(n - 1)
  }

  function Min(a: int, b: int): int {
    if a < b then a else b
  }

  /** The wait after a failure that `attempt` failures precede. */
  function Delay(attempt: nat): nat {
    Min(30_000, 1_000 * Pow2(Min(attempt, 5)))
  }

  /** `live` is an open connection, `retry` the delay of a pending timer; `resumes` lists the cursor
      each connection started from, `received` the ids that came in, `waits` the delays. */
  datatype Loop = Loop(
    stopped: bool, live: bool, retry: Option<nat>, attempt: nat,
    lastEventId: Option<string>, cursor: Option<string>, connected: bool,
    resumes: seq<Option<string>>, reports: nat, received: seq<string>, waits: seq<nat>)

  datatype Event = Message(id: Option<string>, event: string) | Ends | TimerFires | Cleanup

  function Connected(s: Loop): Loop {
    s.(live := true, retry := None, resumes := s.resumes + [s.lastEventId],
       reports := if s.attempt > 0 then s.reports + 1 else s.reports)
  }

  /** Mounting with the cursor that an earlier page left in session storage. */
  function Mounted(cursor: Option<string>, connected: bool): Loop {
    Connected(Loop(false, false, None, 0, cursor, cursor, connected, [], 0, [], []))
  }

  function Step(s: Loop, e: Event): Loop {
    match e
    case Message(id, event) =>
      if !s.live then s
      else
        var named := if id.Some? && id.value != ""
                     then s.(lastEventId := id, cursor := id, received := s.received + [id.value]) else s;
        if event == "ready" then named.(attempt := 0, connected := true) else named
    case Ends =>
      if !s.live then s
      else s.(live := false, connected := false, retry := Some(Delay(s.attempt)), attempt := s.attempt + 1,
              waits := s.waits + [Delay(s.attempt)])
    case TimerFires => if s.retry.None? then s else Connected(s)
    case Cleanup => s.(stopped := true, live := false, retry := None, connected := false)
  }

  function Run(s: Loop, events: seq<Event>): Loop
    decreases |events|
  {
    if events == [] then s else Run(Step(s, events[0]), events[1..])
  }

  // ------------------------------------------------------------- the loop as code

  class ControlPlaneEvents {
    var stopped: bool
    var retryTimer: Option<nat>
    var attempt: nat
    var live: bool
    var lastEventId: Option<string>
    var storedCursor: Option<string>
    var reconnectReports: nat
    const flag: StreamFlag
    ghost var resumes: seq<Option<string>>
    ghost var received: seq<string>
    ghost var waits: seq<nat>

    ghost function Abs(): Loop
      reads this, flag
    {
      Loop(stopped, live, retryTimer, attempt, lastEventId, storedCursor, flag.connected, resumes, reconnectReports,
          received, waits)
    }

    constructor (cursor: Option<string>, flag: StreamFlag)
      requires flag.Valid()
      ensures this.flag == flag && flag.Valid() && flag.Abs() == old(flag.Abs())
      ensures Abs() == Mounted(cursor, old(flag.connected))
    {
      this.flag := flag;
      stopped, retryTimer, attempt, live := false, None, 0, false;
      lastEventId, storedCursor, reconnectReports := cursor, cursor, 0;
      resumes, received, waits := [], [], [];
      new;
      Connect();
    }

    method Connect()
      modifies this
      ensures Abs() == Connected(old(Abs()))
    {
      if attempt > 0 {
        reconnectReports := reconnectReports + 1;
      }
      retryTimer := None;
      live := true;
      resumes := resumes + [lastEventId];
    }

    method OnMessage(id: Option<string>, event: string)
      requires flag.Valid()
      modifies this, flag
      ensures flag.Valid() && Abs() == Step(old(Abs()), Message(id, event))
    {
      if !live {
        return;
      }
      if id.Some? && id.value != "" {
        lastEventId := id;
        storedCursor := id;
        received := received + [id.value];
      }
      if event == "ready" {
        attempt := 0;
        flag.SetConnected(true);
      }
    }

    /** The transport returns or throws. */
    method OnEnd()
      requires flag.Valid()
      modifies this, flag
      ensures flag.Valid() && Abs() == (if old(stopped) then old(Abs()).(live := false) else Step(old(Abs()), Ends))
    {
      if !live {
        return;
      }
      live := false;
      if stopped {
        return;
      }
      flag.SetConnected(false);
      var delay := Min(30_000, 1_000 * Pow2(Min(attempt, 5)));
      attempt := attempt + 1;
      retryTimer := Some(delay);
      waits := waits + [delay];
    }

    method OnTimer()
      modifies this
      ensures Abs() == Step(old(Abs()), TimerFires)
    {
      if retryTimer.Some? {
        Connect();
      }
    }

    method Teardown()
      requires flag.Valid()
      modifies this, flag
      ensures flag.Valid() && Abs() == Step(old(Abs()), Cleanup)
    {
      stopped := true;
      live := false;
      retryTimer := None;
      flag.SetConnected(false);
    }
  }

  // ------------------------------------------------------------- every run

  function Last(ids: seq<string>, default: Option<string>): Option<string> {
    if ids == [] then default else Some(ids[|ids| - 1])
  }

  ghost predicate Invariant(s: Loop, start: Option<string>) {
    && !(s.live && s.retry.Some?)
    && (s.stopped ==> !s.live && s.retry.None? && !s.connected)
    && (!s.stopped ==> s.live || s.retry.Some?)
    && (s.retry.Some? ==> !s.connected && s.attempt > 0 && 1_000 <= s.retry.value <= 30_000)
    && s.resumes != [] && s.reports == |s.resumes| - 1
    && s.lastEventId == s.cursor == Last(s.received, start)
  }

  lemma {:induction false} DelayRange(attempt: nat)
    ensures 1_000 <= Delay(attempt) <= 30_000
  {
    PowPositive(Min(attempt, 5));
  }

  lemma {:induction false} PowPositive(n: nat)
    ensures Pow2(n) >= 1
  {
    if n > 0 {
      PowPositive(n - 1);
    }
  }

  lemma {:induction false} StepKeepsInvariant(s: Loop, e: Event, start: Option<string>)
    requires Invariant(s, start)
    ensures Invariant(Step(s, e), start)
  {
    hide Delay;
    DelayRange(s.attempt);
  }

  /** Main result: in every run at most one of an open connection and a pending retry exists, and
      exactly one until teardown; the flag is down while a retry is pending and after teardown;
      reconnects are reported once per connection after the first; and both cursors are the last
      id received. */
  lemma {:induction false} RunKeepsInvariant(cursor: Option<string>, events: seq<Event>)
    ensures Invariant(Run(Mounted(cursor, false), events), cursor)
  {
    RunFrom(Mounted(cursor, false), events, cursor);
  }

  lemma {:induction false} RunFrom(s: Loop, events: seq<Event>, start: Option<string>)
    requires Invariant(s, start)
    ensures Invariant(Run(s, events), start)
    decreases |events|
  {
    if events != [] {
      StepKeepsInvariant(s, events[0], start);
      RunFrom(Step(s, events[0]), events[1..], start);
    }
  }

  /** No connection starts, no report is sent and nothing is stored after teardown. */
  lemma {:induction false} NothingAfterTeardown(s: Loop, events: seq<Event>)
    requires s.stopped && !s.live && s.retry.None? && !s.connected
    ensures Run(s, events) == s
    decreases |events|
  {
    if events != [] {
      NothingAfterTeardown(s, events[1..]);
    }
  }

  /** Every new connection resumes from the last id received before it. */
  lemma {:induction false} ResumesFromLast(s: Loop, e: Event, start: Option<string>)
    requires Invariant(s, start) && |Step(s, e).resumes| > |s.resumes|
    ensures Step(s, e).resumes == s.resumes + [Last(s.received, start)]
  {
  }

  // ------------------------------------------------------------- backoff

  function Delays(first: nat, n: nat): seq<nat> {
    if n == 0 then [] else Delays(first, n - 1) + [Delay(first + n - 1)]
  }

  function Total(waits: seq<nat>): nat {
    if waits == [] then 0 else Total(waits[..|waits| - 1]) + waits[|waits| - 1]
  }

  predicate IsReady(e: Event) {
    e.Message? && e.event == "ready"
  }

  /** The failures of a run: streams that end while they are open. */
  function Failures(s: Loop, events: seq<Event>): nat
    decreases |events|
  {
    if events == [] then 0
    else (if events[0].Ends? && s.live then 1 else 0) + Failures(Step(s, events[0]), events[1..])
  }

  /** Until the stream reports ready again, the waits of a run follow the backoff table from the
      current attempt on, one for each failure. */
  lemma {:induction false} WaitsFollowBackoff(s: Loop, events: seq<Event>)
    requires forall e :: e in events ==> !IsReady(e)
    ensures var r, n := Run(s, events), Failures(s, events);
            r.attempt == s.attempt + n && r.waits == s.waits + Delays(s.attempt, n)
    decreases |events|
  {
    hide Delay;
    if events != [] {
      assert !IsReady(events[0]);
      WaitsFollowBackoff(Step(s, events[0]), events[1..]);
      var n := Failures(s, events);
      if events[0].Ends? && s.live {
        DelaysFront(s.attempt, n);
        assert Run(s, events).waits == s.waits + [Delay(s.attempt)] + Delays(s.attempt + 1, n - 1);
      }
    }
  }

  /** Main result on waiting: a run of `n` failures after a ready stream, without a ready one in
      between, waits 1000 * (2^n - 1) ms in all up to five and 31000 + 30000 * (n - 5) ms from five
      on. */
  lemma {:induction false} RunBackoff(s: Loop, events: seq<Event>)
    requires s.attempt == 0 && forall e :: e in events ==> !IsReady(e)
    ensures var n, waited := Failures(s, events), Total(Run(s, events).waits) - Total(s.waits);
            && (n <= 5 ==> waited == 1_000 * (Pow2(n) - 1))
            && (n >= 5 ==> waited == 31_000 + 30_000 * (n - 5))
  {
    hide Delays, Total, Pow2, Step;
    WaitsFollowBackoff(s, events);
    TotalBackoff(Failures(s, events));
    TotalConcat(s.waits, Delays(0, Failures(s, events)));
  }

  lemma {:induction false} TotalConcat(a: seq<nat>, b: seq<nat>)
    ensures Total(a + b) == Total(a) + Total(b)
  {
    if b == [] {
      assert a + b == a;
    } else {
      assert (a + b)[..|a + b| - 1] == a + b[..|b| - 1];
      TotalConcat(a, b[..|b| - 1]);
    }
  }

  lemma {:induction false} DelaysFront(first: nat, n: nat)
    requires n > 0
    ensures Delays(first, n) == [Delay(first)] + Delays(first + 1, n - 1)
  {
    if n > 1 {
      DelaysFront(first, n - 1);
    }
  }

  lemma {:induction false} TotalSnoc(waits: seq<nat>, delay: nat)
    ensures Total(waits + [delay]) == Total(waits) + delay
  {
    assert (waits + [delay])[..|waits|] == waits;
  }

  /** `n` consecutive failures after a ready stream wait 1000 * (2^n - 1) ms up to the fifth and
      30000 ms for each one after that. */
  lemma {:induction false} TotalBackoff(n: nat)
    ensures n <= 5 ==> Total(Delays(0, n)) == 1_000 * (Pow2(n) - 1)
    ensures n >= 5 ==> Total(Delays(0, n)) == 31_000 + 30_000 * (n - 5)
  {
    PowTable();
    if n > 0 {
      TotalBackoff(n - 1);
      TotalSnoc(Delays(0, n - 1), Delay(n - 1));
    }
  }

  lemma {:induction false} PowTable()
    ensures Pow2(0) == 1 && Pow2(1) == 2 && Pow2(2) == 4 && Pow2(3) == 8 && Pow2(4) == 16 && Pow2(5) == 32
  {
    assert Pow2(1) == 2 * Pow2(0);
    assert Pow2(2) == 2 * Pow2(1);
    assert Pow2(3) == 2 * Pow2(2);
    assert Pow2(4) == 2 * Pow2(3);
    assert Pow2(5) == 2 * Pow2(4);
  }

  // ------------------------------------------------------------- single events

  /** Setting the flag sets it; a change is heard by every listener once, anything else by none. */
  lemma {:induction false} FlagIsSet(f: Flag, value: bool)
    ensures SetFlag(f, value).connected == value && SetFlag(f, value).heard.Keys == f.heard.Keys
    ensures forall l :: l in f.heard ==>
              SetFlag(f, value).heard[l] == (if f.connected == value then f.heard[l] else f.heard[l] + [value])
  {
  }

  /** What a message does while the stream is open: a text id, and only that, moves both cursors;
      `ready` clears the attempts and raises the flag; nothing else changes. */
  lemma {:induction false} MessageEffect(s: Loop, id: Option<string>, event: string)
    requires s.live
    ensures var r := Step(s, Message(id, event));
            && (if id.Some? && id.value != "" then
                  r.lastEventId == r.cursor == id && r.received == s.received + [id.value]
                else r.lastEventId == s.lastEventId && r.cursor == s.cursor && r.received == s.received)
            && (if event == "ready" then r.attempt == 0 && r.connected
                else r.attempt == s.attempt && r.connected == s.connected)
            && r.live && r.retry == s.retry && r.stopped == s.stopped && r.resumes == s.resumes
            && r.reports == s.reports && r.waits == s.waits
  {
  }

  /** The wait after a failure: a second at first, doubled for each failure in a row, half a minute
      from the sixth on. */
  lemma {:induction false} DelayTable(attempt: nat)
    ensures Delay(0) == 1_000 && Delay(1) == 2_000 && Delay(2) == 4_000 && Delay(3) == 8_000 && Delay(4) == 16_000
    ensures attempt >= 5 ==> Delay(attempt) == 30_000
  {
    PowTable();
  }

  /** What the end of an open stream does: it lowers the flag and schedules one retry. */
  lemma {:induction false} EndEffect(s: Loop)
    requires s.live
    ensures var r := Step(s, Ends);
            && !r.live && !r.connected && r.retry == Some(Delay(s.attempt)) && r.attempt == s.attempt + 1
            && r.waits == s.waits + [Delay(s.attempt)]
            && r.lastEventId == s.lastEventId && r.cursor == s.cursor && r.resumes == s.resumes
  {
  }

  /** What a fired retry does: it opens one connection from the cursor, and reports it after a
      failure. */
  lemma {:induction false} RetryEffect(s: Loop)
    requires s.retry.Some?
    ensures var r := Step(s, TimerFires);
            && r.live && r.retry == None && r.resumes == s.resumes + [s.lastEventId]
            && r.reports == s.reports + (if s.attempt > 0 then 1 else 0)
            && r.attempt == s.attempt && r.connected == s.connected && r.cursor == s.cursor
  {
  }

  /** Teardown leaves nothing open, pending or connected, for good. */
  lemma {:induction false} TeardownEnds(s: Loop, events: seq<Event>)
    ensures var r := Step(s, Cleanup);
            r.stopped && !r.live && r.retry == None && !r.connected && Run(r, events) == r
  {
    NothingAfterTeardown(Step(s, Cleanup), events);
  }

  lemma {:induction false} RunSnoc(s: Loop, events: seq<Event>, last: Event)
    ensures Run(s, events + [last]) == Step(Run(s, events), last)
    decreases |events|
  {
    if events == [] {
      assert events + [last] == [last] && [last][1..] == [];
    } else {
      assert (events + [last])[1..] == events[1..] + [last];
      RunSnoc(Step(s, events[0]), events[1..], last);
    }
  }

  /** Main result on recovery: after any run that ends in `ready` on an open stream the flag is up and
      the next failure waits one second, whatever was waited before. */
  lemma {:induction false} ReadyRecovers(s: Loop, events: seq<Event>, id: Option<string>)
    requires Run(s, events).live
    ensures var r := Run(s, events + [Message(id, "ready")]);
            r.connected && r.attempt == 0 && Step(r, Ends).retry == Some(1_000)
  {
    RunSnoc(s, events, Message(id, "ready"));
    MessageEffect(Run(s, events), id, "ready");
    hide Step, Run;
    EndEffect(Run(s, events + [Message(id, "ready")]));
    DelayTable(0);
  }

  /** The ids of a run: those that arrive, with a text, while a stream is open. */
  function Arrived(s: Loop, events: seq<Event>): seq<string>
    decreases |events|
  {
    if events == [] then []
    else
      (match events[0]
       case Message(id, _) => if s.live && id.Some? && id.value != "" then [id.value] else []
       case _ => []) + Arrived(Step(s, events[0]), events[1..])
  }

  /** Every such id is received, and no other. */
  lemma {:induction false} ReceivesArrived(s: Loop, events: seq<Event>)
    ensures Run(s, events).received == s.received + Arrived(s, events)
    decreases |events|
  {
    if events != [] {
      ReceivesArrived(Step(s, events[0]), events[1..]);
    }
  }

  /** Mounting opens one connection from the stored cursor; it reports nothing and waits for nothing. */
  lemma {:induction false} MountEffect(cursor: Option<string>, connected: bool)
    ensures var r := Mounted(cursor, connected);
            && r.live && !r.stopped && r.retry == None && r.attempt == 0 && r.resumes == [cursor]
            && r.lastEventId == r.cursor == cursor && r.connected == connected
            && r.reports == 0 && r.received == [] && r.waits == []
  {
  }

  /** A subscriber is told nothing at once, stays one if it subscribes again, and hears nothing after it
      unsubscribes. */
  lemma {:induction false} Subscriptions(f: Flag, listener: nat)
    ensures listener !in f.heard ==> Subscribed(f, listener).heard == f.heard[listener := []]
    ensures listener in f.heard ==> Subscribed(f, listener) == f
    ensures listener !in Unsubscribed(f, listener).heard
    ensures forall l :: l != listener && l in f.heard ==>
              l in Unsubscribed(f, listener).heard && Unsubscribed(f, listener).heard[l] == f.heard[l]
    ensures Subscribed(f, listener).connected == Unsubscribed(f, listener).connected == f.connected
  {
  }
}
