/** src/daemon.rs: the polling multi-listener daemon. One thread scans its
    nonblocking listeners in index order, hands the first waiting stream to the
    runtime, and sleeps when nobody waits; `should_continue` is asked before
    every scan.

    Time counts the calls that can observe the outside world: every accept,
    every sleep and every question to `should_continue`. At each instant the
    environment may let streams arrive at any listener, make an accept fail, and
    change its mind about stopping. Since the daemon may run for ever, runs are
    followed up to a horizon, which is arbitrary. */
module PollingDaemon {
  import opened Wrappers

  type Stream = int
  type RuntimeState(!new)
  type RequestError(!new)

  datatype Tick = Tick(arrivals: seq<(nat, Stream)>, acceptFails: bool)

  /** `MultiListenerRuntime` as arbitrary functions: how a request changes the
      runtime, and, separately, whether it reports an error. */
  datatype Runtime = Runtime(
    shouldContinue: (RuntimeState, nat) -> bool,
    handle: (RuntimeState, nat, Stream) -> RuntimeState,
    failure: (RuntimeState, nat, Stream) -> Option<RequestError>,
    start: RuntimeState -> (RuntimeState, bool),
    stop: RuntimeState -> (RuntimeState, bool))

  datatype World = World(runtime: Runtime, tickAt: nat -> Tick)

  /** One handled request, with the runtime state it met. */
  datatype Handled = Handled(listener: nat, stream: Stream, met: RuntimeState)

  datatype Event =
    | Started(ok: bool)
    | Checked(goOn: bool)
    | Served(listener: nat, stream: Stream)
    | AcceptFailed(listener: nat)
    | Stopped(ok: bool)

  datatype LogEntry = LogEntry(listener: nat, error: RequestError)

  datatype Daemon = Daemon(
    time: nat,
    arrived: seq<seq<Stream>>,
    queues: seq<seq<Stream>>,
    runtime: RuntimeState,
    handled: seq<Handled>,
    log: seq<LogEntry>,
    events: seq<Event>)

  function Bound(count: nat, runtime: RuntimeState): Daemon
  {
    Daemon(0, seq(count, _ => []), seq(count, _ => []), runtime, [], [], [])
  }

  // ---------- single calls ----------

  function Deliver(to: seq<seq<Stream>>, arrivals: seq<(nat, Stream)>): (result: seq<seq<Stream>>)
    ensures |result| == |to|
    decreases |arrivals|
  {
    if arrivals == [] then to
    else
      var (i, stream) := arrivals[0];
      Deliver(if i < |to| then to[i := to[i] + [stream]] else to, arrivals[1..])
  }

  /** The world moves on by one instant. */
  function Pass(w: World, d: Daemon): (after: Daemon)
    ensures |after.queues| == |d.queues| && |after.arrived| == |d.arrived| && after.time == d.time + 1
  {
    var arrivals := w.tickAt(d.time).arrivals;
    d.(time := d.time + 1, arrived := Deliver(d.arrived, arrivals), queues := Deliver(d.queues, arrivals))
  }

  datatype Accepted = Nobody | Stream(stream: Stream) | AcceptError

  /** `accept_next_stream` on listener `i`: a waiting stream in arrival order,
      nothing (`WouldBlock`), or an error. */
  function Accept(w: World, d: Daemon, i: nat): (Daemon, Accepted)
    requires i < |d.queues|
  {
    var now := Pass(w, d);
    if w.tickAt(d.time).acceptFails then (now.(events := now.events + [AcceptFailed(i)]), AcceptError)
    else if now.queues[i] == [] then (now, Nobody)
    else (now.(queues := now.queues[i := now.queues[i][1..]]), Stream(now.queues[i][0]))
  }

  /** `handle_stream`, and the error log when it returns an error. */
  function Handle(w: World, d: Daemon, i: nat, stream: Stream): Daemon
  {
    var failure := w.runtime.failure(d.runtime, i, stream);
    d.(runtime := w.runtime.handle(d.runtime, i, stream),
       handled := d.handled + [Handled(i, stream, d.runtime)],
       log := d.log + (if failure.Some? then [LogEntry(i, failure.value)] else []),
       events := d.events + [Served(i, stream)])
  }

  datatype ScanResult = ServedOne | Idle | ListenerFailed

  /** `try_serve_next_stream` from listener `i` on. */
  function Scan(w: World, d: Daemon, i: nat): (Daemon, ScanResult)
    requires i <= |d.queues|
    decreases |d.queues| - i
  {
    if i == |d.queues| then (d, Idle)
    else
      var (after, accepted) := Accept(w, d, i);
      match accepted
      case AcceptError => (after, ListenerFailed)
      case Nobody => Scan(w, after, i + 1)
      case Stream(stream) => (Handle(w, after, i, stream), ServedOne)
  }

  /** One question to `should_continue`. */
  function Check(w: World, d: Daemon): (Daemon, bool)
  {
    var goOn := w.runtime.shouldContinue(d.runtime, d.time);
    (Pass(w, d).(events := d.events + [Checked(goOn)]), goOn)
  }

  // ---------- the two nested loops ----------

  datatype ServeResult = Finished | Failed | StillRunning

  lemma {:induction false} ScanTakesTime(w: World, d: Daemon, i: nat)
    requires i <= |d.queues|
    ensures Scan(w, d, i).0.time >= d.time && |Scan(w, d, i).0.queues| == |d.queues|
    decreases |d.queues| - i
  {
    if i < |d.queues| {
      var (after, accepted) := Accept(w, d, i);
      if accepted.Nobody? { ScanTakesTime(w, after, i + 1); }
    }
  }

  /** `serve_streams` (`inner` false) and `serve_next_stream` inside it (`inner`
      true), each at the top of its `while`. */
  function Serve(w: World, d: Daemon, inner: bool, horizon: nat): (Daemon, ServeResult)
    decreases horizon - d.time
  {
    if d.time >= horizon then (d, StillRunning)
    else
      var (checked, goOn) := Check(w, d);
      if !inner then
        if goOn then Serve(w, checked, true, horizon) else (checked, Finished)
      else if !goOn then Serve(w, checked, false, horizon)
      else
        var (scanned, result) := Scan(w, checked, 0);
        ScanTakesTime(w, checked, 0);
        match result
        case ListenerFailed => (scanned, Failed)
        case ServedOne => Serve(w, scanned, false, horizon)
        case Idle => Serve(w, Pass(w, scanned), true, horizon)
  }

  datatype RunResult = RanOk | StartError | ListenerError | StopError | Unfinished

  /** `MultiListenerDaemon::run` after a successful bind. */
  function Run(w: World, d: Daemon, horizon: nat): (Daemon, RunResult)
  {
    var (begun, started) := w.runtime.start(d.runtime);
    var first := d.(runtime := begun, events := d.events + [Started(started)]);
    if !started then (first, StartError)
    else
      var (served, result) := Serve(w, first, false, horizon);
      if result.StillRunning? then (served, Unfinished)
      else
        var (ended, stopped) := w.runtime.stop(served.runtime);
        (served.(runtime := ended, events := served.events + [Stopped(stopped)]),
         if result.Failed? then ListenerError else if stopped then RanOk else StopError)
  }

  // ---------- order and conservation ----------

  function StreamsOf(handled: seq<Handled>, i: nat): seq<Stream>
  {
    if handled == [] then []
    else
      var last := |handled| - 1;
      StreamsOf(handled[..last], i) + (if handled[last].listener == i then [handled[last].stream] else [])
  }

  /** At every listener the handled streams are the oldest arrivals, in order,
      and everything else is still queued. */
  predicate InOrder(d: Daemon)
  {
    && |d.arrived| == |d.queues|
    && forall i :: 0 <= i < |d.queues| ==> d.arrived[i] == StreamsOf(d.handled, i) + d.queues[i]
  }

  /** The errors of the handled requests, oldest first, tagged by listener. */
  function FailuresOf(r: Runtime, handled: seq<Handled>): seq<LogEntry>
  {
    if handled == [] then []
    else
      var h := handled[|handled| - 1];
      var failure := r.failure(h.met, h.listener, h.stream);
      FailuresOf(r, handled[..|handled| - 1]) + (if failure.Some? then [LogEntry(h.listener, failure.value)] else [])
  }

  /** The streams for listener `i` among these arrivals. */
  function StreamsFor(arrivals: seq<(nat, Stream)>, i: nat): seq<Stream>
  {
    if arrivals == [] then []
    else (if arrivals[0].0 == i then [arrivals[0].1] else []) + StreamsFor(arrivals[1..], i)
  }

  /** Everything the outside world sent to listener `i` before this instant. */
  function SentTo(w: World, i: nat, now: nat): seq<Stream>
    decreases now
  {
    if now == 0 then [] else SentTo(w, i, now - 1) + StreamsFor(w.tickAt(now - 1).arrivals, i)
  }

  predicate ReceivedAll(w: World, d: Daemon)
  {
    forall i :: 0 <= i < |d.arrived| ==> d.arrived[i] == SentTo(w, i, d.time)
  }

  predicate Faithful(w: World, d: Daemon)
  {
    InOrder(d) && ReceivedAll(w, d) && d.log == FailuresOf(w.runtime, d.handled)
  }

  lemma {:induction false} DeliverAdds(to: seq<seq<Stream>>, arrivals: seq<(nat, Stream)>, i: nat)
    requires i < |to|
    ensures Deliver(to, arrivals)[i] == to[i] + StreamsFor(arrivals, i)
    decreases |arrivals|
  {
    if arrivals != [] {
      var (k, stream) := arrivals[0];
      var next := if k < |to| then to[k := to[k] + [stream]] else to;
      DeliverAdds(next, arrivals[1..], i);
      assert next[i] == to[i] + if k == i then [stream] else [];
    }
  }

  lemma {:induction false} DeliverKeepsOrder(arrived: seq<seq<Stream>>, queues: seq<seq<Stream>>, served: seq<seq<Stream>>, arrivals: seq<(nat, Stream)>)
    requires |arrived| == |queues| == |served|
    requires forall i :: 0 <= i < |queues| ==> arrived[i] == served[i] + queues[i]
    ensures var a, q := Deliver(arrived, arrivals), Deliver(queues, arrivals);
      forall i :: 0 <= i < |queues| ==> a[i] == served[i] + q[i]
    decreases |arrivals|
  {
    if arrivals != [] {
      var (i, stream) := arrivals[0];
      if i < |queues| {
        DeliverKeepsOrder(arrived[i := arrived[i] + [stream]], queues[i := queues[i] + [stream]], served, arrivals[1..]);
      } else {
        DeliverKeepsOrder(arrived, queues, served, arrivals[1..]);
      }
    }
  }

  lemma {:induction false} PassReceivesAll(w: World, d: Daemon)
    requires ReceivedAll(w, d)
    ensures ReceivedAll(w, Pass(w, d))
  {
    forall i | 0 <= i < |d.arrived| ensures Pass(w, d).arrived[i] == SentTo(w, i, d.time + 1) {
      DeliverAdds(d.arrived, w.tickAt(d.time).arrivals, i);
    }
  }

  lemma {:induction false} PassKeepsOrder(w: World, d: Daemon)
    requires Faithful(w, d)
    ensures Faithful(w, Pass(w, d))
  {
    PassReceivesAll(w, d);
    var served := seq(|d.queues|, i requires 0 <= i < |d.queues| => StreamsOf(d.handled, i));
    DeliverKeepsOrder(d.arrived, d.queues, served, w.tickAt(d.time).arrivals);
  }

  lemma {:induction false} HandleKeepsOrder(w: World, now: Daemon, i: nat)
    requires Faithful(w, now) && i < |now.queues| && now.queues[i] != []
    ensures Faithful(w, Handle(w, now.(queues := now.queues[i := now.queues[i][1..]]), i, now.queues[i][0]))
  {
    var taken := now.(queues := now.queues[i := now.queues[i][1..]]);
    var after := Handle(w, taken, i, now.queues[i][0]);
    assert after.handled[..|now.handled|] == now.handled;
    assert now.queues[i] == [now.queues[i][0]] + now.queues[i][1..];
  }

  lemma {:induction false} ScanKeepsOrder(w: World, d: Daemon, i: nat)
    requires Faithful(w, d) && i <= |d.queues|
    ensures Faithful(w, Scan(w, d, i).0)
    decreases |d.queues| - i
  {
    if i < |d.queues| {
      PassKeepsOrder(w, d);
      var (after, accepted) := Accept(w, d, i);
      match accepted
      case AcceptError =>
      case Nobody => ScanKeepsOrder(w, after, i + 1);
      case Stream(_) => HandleKeepsOrder(w, Pass(w, d), i);
    }
  }

  lemma {:induction false} ServeKeepsOrder(w: World, d: Daemon, inner: bool, horizon: nat)
    requires Faithful(w, d)
    ensures var after := Serve(w, d, inner, horizon).0;
      Faithful(w, after) && |after.queues| == |d.queues|
    decreases horizon - d.time
  {
    if d.time < horizon {
      var (checked, goOn) := Check(w, d);
      PassKeepsOrder(w, d);
      if !inner {
        if goOn { ServeKeepsOrder(w, checked, true, horizon); }
      } else if !goOn {
        ServeKeepsOrder(w, checked, false, horizon);
      } else {
        var (scanned, result) := Scan(w, checked, 0);
        ScanTakesTime(w, checked, 0);
        ScanKeepsOrder(w, checked, 0);
        match result
        case ListenerFailed =>
        case ServedOne => ServeKeepsOrder(w, scanned, false, horizon);
        case Idle =>
          PassKeepsOrder(w, scanned);
          ServeKeepsOrder(w, Pass(w, scanned), true, horizon);
      }
    }
  }

  /** In every run, at every listener: what was sent so far has arrived; it is
      served first come first served, and no stream is lost, duplicated or handled
      for another listener. The error log is exactly
      the failing requests, in the order they were handled. */
  lemma RunsKeepOrder(w: World, count: nat, runtime: RuntimeState, horizon: nat)
    ensures var d := Run(w, Bound(count, runtime), horizon).0;
      && |d.queues| == count && InOrder(d)
      && (forall i :: 0 <= i < count ==> d.arrived[i] == SentTo(w, i, d.time))
      && d.log == FailuresOf(w.runtime, d.handled)
  {
    var (begun, started) := w.runtime.start(runtime);
    var first := Bound(count, runtime).(runtime := begun, events := [Started(started)]);
    assert Faithful(w, first);
    assert Bound(count, runtime).events + [Started(started)] == [Started(started)];
    ServeKeepsOrder(w, first, false, horizon);
  }

  // ---------- a request error changes only the log ----------

  function Unlogged(d: Daemon): Daemon
  {
    d.(log := [])
  }

  /** The same world, but with other requests failing. */
  function Failing(w: World, failure: (RuntimeState, nat, Stream) -> Option<RequestError>): World
  {
    World(w.runtime.(failure := failure), w.tickAt)
  }

  lemma {:induction false} ScanIgnoresFailures(w: World, v: World, d: Daemon, e: Daemon, i: nat)
    requires v == Failing(w, v.runtime.failure) && Unlogged(d) == Unlogged(e) && i <= |d.queues|
    ensures Scan(w, d, i).1 == Scan(v, e, i).1
    ensures Unlogged(Scan(w, d, i).0) == Unlogged(Scan(v, e, i).0)
    decreases |d.queues| - i
  {
    if i < |d.queues| {
      var (after, accepted) := Accept(w, d, i);
      if accepted.Nobody? { ScanIgnoresFailures(w, v, after, Accept(v, e, i).0, i + 1); }
    }
  }

  lemma {:induction false} ServeIgnoresFailures(w: World, v: World, d: Daemon, e: Daemon, inner: bool, horizon: nat)
    requires v == Failing(w, v.runtime.failure) && Unlogged(d) == Unlogged(e)
    ensures Serve(w, d, inner, horizon).1 == Serve(v, e, inner, horizon).1
    ensures Unlogged(Serve(w, d, inner, horizon).0) == Unlogged(Serve(v, e, inner, horizon).0)
    decreases horizon - d.time
  {
    if d.time < horizon {
      var (checked, goOn) := Check(w, d);
      var other := Check(v, e).0;
      if !inner {
        if goOn { ServeIgnoresFailures(w, v, checked, other, true, horizon); }
      } else if !goOn {
        ServeIgnoresFailures(w, v, checked, other, false, horizon);
      } else {
        var (scanned, result) := Scan(w, checked, 0);
        var twin := Scan(v, other, 0).0;
        ScanTakesTime(w, checked, 0);
        ScanIgnoresFailures(w, v, checked, other, 0);
        match result
        case ListenerFailed =>
        case ServedOne => ServeIgnoresFailures(w, v, scanned, twin, false, horizon);
        case Idle => ServeIgnoresFailures(w, v, Pass(w, scanned), Pass(v, twin), true, horizon);
      }
    }
  }

  /** Whether requests fail changes nothing but the log: same result, same
      requests handled in the same order, same runtime, same queues. */
  lemma RequestErrorsAreIsolated(w: World, failure: (RuntimeState, nat, Stream) -> Option<RequestError>, d: Daemon, horizon: nat)
    ensures Run(w, d, horizon).1 == Run(Failing(w, failure), d, horizon).1
    ensures Unlogged(Run(w, d, horizon).0) == Unlogged(Run(Failing(w, failure), d, horizon).0)
  {
    var (begun, started) := w.runtime.start(d.runtime);
    var first := d.(runtime := begun, events := d.events + [Started(started)]);
    ServeIgnoresFailures(w, Failing(w, failure), first, first, false, horizon);
  }

  // ---------- polling order ----------

  predicate Quiet(w: World, t: nat)
  {
    w.tickAt(t) == Tick([], false)
  }

  /** From this instant on nothing arrives and no accept fails. */
  ghost predicate QuietFrom(w: World, now: nat)
  {
    forall t: nat :: t >= now ==> Quiet(w, t)
  }

  function Tagged(i: nat, queue: seq<Stream>): seq<(nat, Stream)>
  {
    if queue == [] then [] else [(i, queue[0])] + Tagged(i, queue[1..])
  }

  /** The waiting streams of listener `i` and the later ones, in index order. */
  function Waiting(queues: seq<seq<Stream>>, i: nat): seq<(nat, Stream)>
    requires i <= |queues|
    decreases |queues| - i
  {
    if i == |queues| then [] else Tagged(i, queues[i]) + Waiting(queues, i + 1)
  }

  lemma {:induction false} WaitingIgnoresEarlier(a: seq<seq<Stream>>, b: seq<seq<Stream>>, i: nat)
    requires i <= |a| == |b| && forall k :: i <= k < |a| ==> a[k] == b[k]
    ensures Waiting(a, i) == Waiting(b, i)
    decreases |a| - i
  {
    if i < |a| { WaitingIgnoresEarlier(a, b, i + 1); }
  }

  lemma {:induction false} QuietPass(w: World, d: Daemon)
    requires Quiet(w, d.time)
    ensures Pass(w, d) == d.(time := d.time + 1)
  {
  }

  /** A scan from listener `i` on serves the first waiting stream, if there is
      one, and otherwise changes neither queues nor requests. */
  predicate ServesFirst(d: Daemon, i: nat, after: Daemon, result: ScanResult)
    requires i <= |d.queues|
  {
    var waiting := Waiting(d.queues, i);
    && |after.queues| == |d.queues|
    && (forall k :: 0 <= k < i ==> after.queues[k] == d.queues[k])
    && (waiting == [] ==> result == Idle && after.queues == d.queues && after.handled == d.handled)
    && (waiting != [] ==>
          && result == ServedOne
          && Waiting(after.queues, i) == waiting[1..]
          && |after.handled| == |d.handled| + 1 && d.handled <= after.handled
          && var h := after.handled[|d.handled|]; (h.listener, h.stream) == waiting[0])
  }

  lemma {:induction false} ServesWaiting(w: World, d: Daemon, i: nat)
    requires i < |d.queues| && d.queues[i] != []
    ensures var after := Handle(w, d.(queues := d.queues[i := d.queues[i][1..]]), i, d.queues[i][0]);
      ServesFirst(d, i, after, ServedOne)
  {
    var rest := d.queues[i := d.queues[i][1..]];
    WaitingIgnoresEarlier(d.queues, rest, i + 1);
    assert Waiting(rest, i) == Waiting(d.queues, i)[1..];
  }

  lemma {:induction false} PassesEmpty(d: Daemon, i: nat, after: Daemon, result: ScanResult)
    requires i < |d.queues| && d.queues[i] == [] && ServesFirst(d, i + 1, after, result)
    ensures ServesFirst(d, i, after, result)
  {
    assert after.queues[i] == [];
  }

  lemma {:induction false} QuietScan(w: World, d: Daemon, i: nat)
    requires i <= |d.queues| && QuietFrom(w, d.time)
    ensures var (after, result) := Scan(w, d, i);
      ServesFirst(d, i, after, result)
    decreases |d.queues| - i
  {
    if i < |d.queues| {
      QuietPass(w, d);
      var now := d.(time := d.time + 1);
      if d.queues[i] == [] {
        QuietScan(w, now, i + 1);
        var (after, result) := Scan(w, now, i + 1);
        PassesEmpty(now, i, after, result);
      } else {
        ServesWaiting(w, now, i);
      }
    }
  }

  /** `count` calls of `try_serve_next_stream`, as long as they serve. */
  function ScanRepeatedly(w: World, d: Daemon, count: nat): (Daemon, bool)
    decreases count
  {
    if count == 0 then (d, true)
    else
      var (after, result) := Scan(w, d, 0);
      if result.ServedOne? then ScanRepeatedly(w, after, count - 1) else (after, false)
  }

  function Pairs(handled: seq<Handled>): seq<(nat, Stream)>
  {
    if handled == [] then [] else [(handled[0].listener, handled[0].stream)] + Pairs(handled[1..])
  }

  lemma PairsUnfold(before: seq<Handled>, next: seq<Handled>, after: seq<Handled>)
    requires before <= next <= after && |next| == |before| + 1
    ensures before <= after
    ensures var h := next[|before|];
      Pairs(after[|before|..]) == [(h.listener, h.stream)] + Pairs(after[|next|..])
  {
    assert after[|before|..][1..] == after[|next|..];
    assert after[|before|] == next[|before|];
  }

  /** With no new arrivals and no accept error from now on, calling `try_serve_next_stream`
      until it returns false handles exactly the waiting streams, listener by
      listener in index order and first come first served within each. */
  lemma {:induction false} PollingHandlesAllInIndexOrder(w: World, d: Daemon)
    requires QuietFrom(w, d.time)
    ensures var waiting := Waiting(d.queues, 0);
      var (after, served) := ScanRepeatedly(w, d, |waiting|);
      && served
      && d.handled <= after.handled
      && Pairs(after.handled[|d.handled|..]) == waiting
      && Scan(w, after, 0).1 == Idle
      && Waiting(after.queues, 0) == []
    decreases |Waiting(d.queues, 0)|
  {
    var waiting := Waiting(d.queues, 0);
    QuietScan(w, d, 0);
    if waiting != [] {
      var next := Scan(w, d, 0).0;
      ScanTakesTime(w, d, 0);
      PollingHandlesAllInIndexOrder(w, next);
      PairsUnfold(d.handled, next.handled, ScanRepeatedly(w, next, |waiting| - 1).0.handled);
      assert waiting == [waiting[0]] + waiting[1..];
    }
  }

  /** A scan in any environment asks the listeners one after the other: it ends
      in an error exactly at the first accept that fails, serves the listener it
      asked last, and is idle only after asking them all. */
  lemma {:induction false} ScanStopsAt(w: World, d: Daemon, i: nat)
    requires i <= |d.queues|
    ensures var (after, result) := Scan(w, d, i);
      var asked := after.time - d.time;
      && (forall t: nat :: d.time <= t < after.time - 1 ==> !w.tickAt(t).acceptFails)
      && (result.ListenerFailed? <==> asked > 0 && w.tickAt(after.time - 1).acceptFails)
      && (result.Idle? ==> asked == |d.queues| - i)
      && (result.ServedOne? ==>
            |after.handled| == |d.handled| + 1 && after.handled[|d.handled|].listener == i + asked - 1)
    decreases |d.queues| - i
  {
    if i < |d.queues| {
      var (after, accepted) := Accept(w, d, i);
      if accepted.Nobody? {
        ScanTakesTime(w, after, i + 1);
        ScanStopsAt(w, after, i + 1);
      }
    }
  }

  lemma {:induction false} WaitingMeansQueued(queues: seq<seq<Stream>>, i: nat, k: nat)
    requires i <= k < |queues| && Waiting(queues, i) == []
    ensures queues[k] == []
    decreases k - i
  {
    if i < k { WaitingMeansQueued(queues, i + 1, k); }
  }

  lemma {:induction false} RepeatedScansKeepOrder(w: World, d: Daemon, count: nat)
    requires Faithful(w, d)
    ensures var after := ScanRepeatedly(w, d, count).0;
      Faithful(w, after) && |after.queues| == |d.queues|
    decreases count
  {
    if count > 0 {
      ScanKeepsOrder(w, d, 0);
      ScanTakesTime(w, d, 0);
      RepeatedScansKeepOrder(w, Scan(w, d, 0).0, count - 1);
    }
  }

  /** After any run, once the outside world is quiet, one poll per waiting stream
      handles exactly the waiting streams in index order, and then every stream
      that ever arrived has been handled, in order of arrival at its listener. */
  lemma QuietEndServesEverything(w: World, count: nat, runtime: RuntimeState, horizon: nat)
    requires QuietFrom(w, Run(w, Bound(count, runtime), horizon).0.time)
    ensures var d := Run(w, Bound(count, runtime), horizon).0;
      var waiting := Waiting(d.queues, 0);
      var (after, served) := ScanRepeatedly(w, d, |waiting|);
      && served && d.handled <= after.handled && Pairs(after.handled[|d.handled|..]) == waiting
      && |after.arrived| == count
      && forall i :: 0 <= i < count ==> StreamsOf(after.handled, i) == after.arrived[i]
  {
    var d := Run(w, Bound(count, runtime), horizon).0;
    RunsKeepOrder(w, count, runtime, horizon);
    PollingHandlesAllInIndexOrder(w, d);
    var n := |Waiting(d.queues, 0)|;
    RepeatedScansKeepOrder(w, d, n);
    var after := ScanRepeatedly(w, d, n).0;
    forall i | 0 <= i < count ensures StreamsOf(after.handled, i) == after.arrived[i] {
      WaitingMeansQueued(after.queues, 0, i);
    }
  }

  // ---------- the shape of a run ----------

  predicate EventFits(events: seq<Event>, k: nat)
    requires k < |events|
  {
    events[k].Checked? || (events[k].Served? && k > 0 && events[k - 1] == Checked(true))
  }

  /** Between `start` and `stop` there are only questions and requests, and each
      request directly follows a question answered yes. */
  predicate Disciplined(events: seq<Event>)
  {
    forall k :: 0 <= k < |events| ==> EventFits(events, k)
  }

  lemma {:induction false} ScanAddsEvents(w: World, d: Daemon, i: nat)
    requires i <= |d.queues|
    ensures var (after, result) := Scan(w, d, i);
      && (result.Idle? ==> after.events == d.events && after.handled == d.handled)
      && (result.ListenerFailed? ==>
            && after.handled == d.handled && |after.events| == |d.events| + 1
            && d.events <= after.events && after.events[|d.events|].AcceptFailed?)
      && (result.ServedOne? ==>
            && |after.handled| == |d.handled| + 1 && d.handled <= after.handled
            && var h := after.handled[|d.handled|];
            after.events == d.events + [Served(h.listener, h.stream)])
    decreases |d.queues| - i
  {
    if i < |d.queues| {
      var (after, accepted) := Accept(w, d, i);
      if accepted.Nobody? { ScanAddsEvents(w, after, i + 1); }
    }
  }

  lemma DisciplineComposes(a: seq<Event>, b: seq<Event>)
    requires Disciplined(a) && Disciplined(b)
    ensures Disciplined(a + b)
  {
    forall k | 0 <= k < |a + b|
      ensures EventFits(a + b, k)
    {
      if k < |a| {
        assert EventFits(a, k);
      } else {
        assert EventFits(b, k - |a|);
      }
    }
  }

  /** What serving adds to the events: questions and requests; a clean end adds a
      final no, and a failure the accept that failed, right after a yes. */
  predicate AddsDisciplined(before: seq<Event>, after: seq<Event>, middle: seq<Event>, result: ServeResult)
  {
    && Disciplined(middle)
    && (!result.Failed? ==> after == before + middle)
    && (result.Failed? ==>
          && |after| == |before| + |middle| + 1 && before + middle <= after && after[|after| - 1].AcceptFailed?
          && middle != [] && middle[|middle| - 1] == Checked(true))
    && (result.Finished? ==> middle != [] && middle[|middle| - 1] == Checked(false))
  }

  lemma {:induction false} AddsMore(before: seq<Event>, first: seq<Event>, after: seq<Event>, rest: seq<Event>, result: ServeResult)
    requires Disciplined(first) && AddsDisciplined(before + first, after, rest, result)
    ensures AddsDisciplined(before, after, first + rest, result)
  {
    DisciplineComposes(first, rest);
    assert before + first + rest == before + (first + rest);
  }

  lemma {:induction false} ServeIsDisciplined(w: World, d: Daemon, inner: bool, horizon: nat)
    returns (middle: seq<Event>)
    ensures var (after, result) := Serve(w, d, inner, horizon);
      AddsDisciplined(d.events, after.events, middle, result)
    decreases horizon - d.time
  {
    middle := [];
    if d.time < horizon {
      var (checked, goOn) := Check(w, d);
      middle := [Checked(goOn)];
      if !inner && !goOn { return; }
      var rest := [];
      if !inner {
        rest := ServeIsDisciplined(w, checked, true, horizon);
      } else if !goOn {
        rest := ServeIsDisciplined(w, checked, false, horizon);
      } else {
        var (scanned, result) := Scan(w, checked, 0);
        ScanTakesTime(w, checked, 0);
        ScanAddsEvents(w, checked, 0);
        match result
        case ListenerFailed => return;
        case ServedOne =>
          var h := scanned.handled[|d.handled|];
          middle := [Checked(goOn), Served(h.listener, h.stream)];
          assert d.events + middle == checked.events + [Served(h.listener, h.stream)];
          rest := ServeIsDisciplined(w, scanned, false, horizon);
        case Idle => rest := ServeIsDisciplined(w, Pass(w, scanned), true, horizon);
      }
      var (after, result) := Serve(w, d, inner, horizon);
      AddsMore(d.events, middle, after.events, rest, result);
      middle := middle + rest;
    }
  }

  /** Serving fails only because the accept just made failed. */
  lemma {:induction false} ServeFailsOnlyOnAccept(w: World, d: Daemon, inner: bool, horizon: nat)
    requires Serve(w, d, inner, horizon).1.Failed?
    ensures var after := Serve(w, d, inner, horizon).0;
      after.time > 0 && w.tickAt(after.time - 1).acceptFails
    decreases horizon - d.time
  {
    var (checked, goOn) := Check(w, d);
    if !inner {
      ServeFailsOnlyOnAccept(w, checked, true, horizon);
    } else if !goOn {
      ServeFailsOnlyOnAccept(w, checked, false, horizon);
    } else {
      var (scanned, result) := Scan(w, checked, 0);
      ScanTakesTime(w, checked, 0);
      ScanStopsAt(w, checked, 0);
      match result
      case ListenerFailed =>
      case ServedOne => ServeFailsOnlyOnAccept(w, scanned, false, horizon);
      case Idle => ServeFailsOnlyOnAccept(w, Pass(w, scanned), true, horizon);
    }
  }

  lemma {:induction false} ServeReachesHorizon(w: World, d: Daemon, inner: bool, horizon: nat)
    requires Serve(w, d, inner, horizon).1.StillRunning?
    ensures Serve(w, d, inner, horizon).0.time >= horizon
    decreases horizon - d.time
  {
    if d.time < horizon {
      var (checked, goOn) := Check(w, d);
      if !inner {
        ServeReachesHorizon(w, checked, true, horizon);
      } else if !goOn {
        ServeReachesHorizon(w, checked, false, horizon);
      } else {
        var (scanned, result) := Scan(w, checked, 0);
        ScanTakesTime(w, checked, 0);
        if result.ServedOne? {
          ServeReachesHorizon(w, scanned, false, horizon);
        } else {
          ServeReachesHorizon(w, Pass(w, scanned), true, horizon);
        }
      }
    }
  }

  /** The events of a failed run end with the failed accept and one `stop`. */
  predicate EndsInFailure(events: seq<Event>, before: seq<Event>)
  {
    && |events| == |before| + 2 && before <= events
    && events[|before|].AcceptFailed? && events[|before| + 1].Stopped?
  }

  /** A finished run is `start` alone, if starting failed, or `start`, questions
      and requests, and exactly one `stop`; a clean end follows a question
      answered no, and a listener error outranks a stop error. The first accept
      that fails ends the run: no other run contains one. */
  lemma {:induction false} RunShape(w: World, d: Daemon, horizon: nat) returns (middle: seq<Event>)
    ensures var (after, result) := Run(w, d, horizon);
      match result
      case StartError => after.events == d.events + [Started(false)]
      case Unfinished =>
        after.events == d.events + [Started(true)] + middle && Disciplined(middle) && after.time >= horizon
      case RanOk =>
        after.events == d.events + [Started(true)] + middle + [Stopped(true)] && Disciplined(middle)
        && middle != [] && middle[|middle| - 1] == Checked(false)
      case StopError =>
        after.events == d.events + [Started(true)] + middle + [Stopped(false)] && Disciplined(middle)
        && middle != [] && middle[|middle| - 1] == Checked(false)
      case ListenerError =>
        && EndsInFailure(after.events, d.events + [Started(true)] + middle) && Disciplined(middle)
        && middle != [] && middle[|middle| - 1] == Checked(true)
        && after.time > 0 && w.tickAt(after.time - 1).acceptFails
  {
    var (begun, started) := w.runtime.start(d.runtime);
    var first := d.(runtime := begun, events := d.events + [Started(started)]);
    middle := ServeIsDisciplined(w, first, false, horizon);
    var result := Serve(w, first, false, horizon).1;
    if result.Failed? { ServeFailsOnlyOnAccept(w, first, false, horizon); }
    if result.StillRunning? { ServeReachesHorizon(w, first, false, horizon); }
  }

  // ---------- the runtime through a run ----------

  /** The runtime after these requests, and nothing else. */
  function Folded(r: Runtime, state: RuntimeState, handled: seq<Handled>): RuntimeState
  {
    if handled == [] then state
    else
      var h := handled[|handled| - 1];
      r.handle(Folded(r, state, handled[..|handled| - 1]), h.listener, h.stream)
  }

  /** Every request met the runtime its predecessors left. */
  ghost predicate MetInOrder(r: Runtime, state: RuntimeState, handled: seq<Handled>)
  {
    forall k :: 0 <= k < |handled| ==> handled[k].met == Folded(r, state, handled[..k])
  }

  /** From `begun` on, with `n` requests before that. */
  ghost predicate RuntimeFolds(r: Runtime, begun: RuntimeState, n: nat, d: Daemon)
  {
    && n <= |d.handled|
    && d.runtime == Folded(r, begun, d.handled[n..])
    && MetInOrder(r, begun, d.handled[n..])
  }

  lemma {:induction false} HandleFolds(w: World, begun: RuntimeState, n: nat, d: Daemon, i: nat, stream: Stream)
    requires RuntimeFolds(w.runtime, begun, n, d)
    ensures RuntimeFolds(w.runtime, begun, n, Handle(w, d, i, stream))
  {
    var before, after := d.handled[n..], Handle(w, d, i, stream).handled[n..];
    assert after == before + [Handled(i, stream, d.runtime)];
    assert after[..|before|] == before;
    forall k | 0 <= k < |after| ensures after[k].met == Folded(w.runtime, begun, after[..k]) {
      if k < |before| {
        assert after[..k] == before[..k] && after[k] == before[k];
      }
    }
  }

  lemma {:induction false} ScanFolds(w: World, begun: RuntimeState, n: nat, d: Daemon, i: nat)
    requires RuntimeFolds(w.runtime, begun, n, d) && i <= |d.queues|
    ensures var after := Scan(w, d, i).0;
      RuntimeFolds(w.runtime, begun, n, after) && d.handled <= after.handled
    decreases |d.queues| - i
  {
    if i < |d.queues| {
      var (after, accepted) := Accept(w, d, i);
      match accepted
      case AcceptError =>
      case Nobody => ScanFolds(w, begun, n, after, i + 1);
      case Stream(stream) => HandleFolds(w, begun, n, after, i, stream);
    }
  }

  lemma {:induction false} ServeFolds(w: World, begun: RuntimeState, n: nat, d: Daemon, inner: bool, horizon: nat)
    requires RuntimeFolds(w.runtime, begun, n, d)
    ensures var after := Serve(w, d, inner, horizon).0;
      RuntimeFolds(w.runtime, begun, n, after) && d.handled <= after.handled
    decreases horizon - d.time
  {
    if d.time < horizon {
      var (checked, goOn) := Check(w, d);
      if !inner {
        if goOn { ServeFolds(w, begun, n, checked, true, horizon); }
      } else if !goOn {
        ServeFolds(w, begun, n, checked, false, horizon);
      } else {
        var (scanned, result) := Scan(w, checked, 0);
        ScanTakesTime(w, checked, 0);
        ScanFolds(w, begun, n, checked, 0);
        match result
        case ListenerFailed =>
        case ServedOne => ServeFolds(w, begun, n, scanned, false, horizon);
        case Idle => ServeFolds(w, begun, n, Pass(w, scanned), true, horizon);
      }
    }
  }

  /** What `run` does to the runtime: `start`, then the handled requests in order,
      each meeting the runtime its predecessors left, then, if serving is over,
      `stop`. The answers of `start` and `stop` are the ones reported. */
  ghost predicate FollowsRuntime(r: Runtime, d: Daemon, after: Daemon, result: RunResult)
  {
    var (begun, started) := r.start(d.runtime);
    && d.handled <= after.handled
    && var served := after.handled[|d.handled|..];
    && MetInOrder(r, begun, served)
    && (result.StartError? <==> !started)
    && (result.StartError? ==> after.runtime == begun && served == [])
    && (result.Unfinished? ==> after.runtime == Folded(r, begun, served))
    && (!result.StartError? && !result.Unfinished? ==>
          var (ended, stopped) := r.stop(Folded(r, begun, served));
          && after.runtime == ended
          && after.events != [] && after.events[|after.events| - 1] == Stopped(stopped)
          && (result.RanOk? ==> stopped) && (result.StopError? ==> !stopped))
  }

  lemma {:induction false} RunFollowsRuntime(w: World, d: Daemon, horizon: nat)
    ensures FollowsRuntime(w.runtime, d, Run(w, d, horizon).0, Run(w, d, horizon).1)
  {
    var (begun, started) := w.runtime.start(d.runtime);
    var first := d.(runtime := begun, events := d.events + [Started(started)]);
    assert first.handled[|d.handled|..] == [];
    if started {
      ServeFolds(w, begun, |d.handled|, first, false, horizon);
    }
  }

  // ---------- the heads of the loops, as the runtime sees them ----------

  datatype Head = Head(runtime: RuntimeState, time: nat, inner: bool)

  predicate Answer(r: Runtime, h: Head)
  {
    r.shouldContinue(h.runtime, h.time)
  }

  /** What can happen between two heads: a question that only changes the loop,
      an idle scan and a sleep, or one request. */
  datatype Move = Turn | IdleScan | Request(listener: nat, stream: Stream)

  predicate Possible(r: Runtime, count: nat, h: Head, move: Move)
  {
    match move
    case Turn => Answer(r, h) != h.inner
    case IdleScan => h.inner && Answer(r, h)
    case Request(i, _) => h.inner && Answer(r, h) && i < count
  }

  function Next(r: Runtime, count: nat, h: Head, move: Move): Head
  {
    match move
    case Turn => Head(h.runtime, h.time + 1, !h.inner)
    case IdleScan => h.(time := h.time + count + 2)
    case Request(i, stream) => Head(r.handle(h.runtime, i, stream), h.time + i + 2, false)
  }

  predicate ValidPath(r: Runtime, count: nat, h: Head, path: seq<Move>)
    decreases |path|
  {
    path == [] || (Possible(r, count, h, path[0]) && ValidPath(r, count, Next(r, count, h, path[0]), path[1..]))
  }

  function Destination(r: Runtime, count: nat, h: Head, path: seq<Move>): (destination: Head)
    ensures destination.time >= h.time + |path|
    decreases |path|
  {
    if path == [] then h else Destination(r, count, Next(r, count, h, path[0]), path[1..])
  }

  function MoveEvents(h: Head, move: Move): seq<Event>
  {
    match move
    case Turn => [Checked(!h.inner)]
    case IdleScan => [Checked(true)]
    case Request(i, stream) => [Checked(true), Served(i, stream)]
  }

  function PathEvents(r: Runtime, count: nat, h: Head, path: seq<Move>): seq<Event>
    decreases |path|
  {
    if path == [] then [] else MoveEvents(h, path[0]) + PathEvents(r, count, Next(r, count, h, path[0]), path[1..])
  }

  lemma {:induction false} PathsCompose(r: Runtime, count: nat, h: Head, path: seq<Move>, rest: seq<Move>)
    ensures var middle := Destination(r, count, h, path);
      && (ValidPath(r, count, h, path + rest) <==> ValidPath(r, count, h, path) && ValidPath(r, count, middle, rest))
      && Destination(r, count, h, path + rest) == Destination(r, count, middle, rest)
      && PathEvents(r, count, h, path + rest) == PathEvents(r, count, h, path) + PathEvents(r, count, middle, rest)
    decreases |path|
  {
    if path == [] {
      assert path + rest == rest;
    } else {
      PathsCompose(r, count, Next(r, count, h, path[0]), path[1..], rest);
      assert (path + rest)[1..] == path[1..] + rest;
    }
  }

  // ---------- every path is a run ----------

  predicate NobodyWaits(d: Daemon)
  {
    |d.arrived| == |d.queues| && forall i :: 0 <= i < |d.queues| ==> d.queues[i] == []
  }

  /** The environment that makes a move happen: nothing arrives before the
      listener that is to serve is asked, and then just the one stream. */
  function MoveTick(start: nat, move: Move, t: nat): Tick
  {
    if move.Request? && t == start + move.listener + 1 then Tick([(move.listener, move.stream)], false)
    else Tick([], false)
  }

  /** The daemon after a move, from empty queues. */
  function Moved(w: World, d: Daemon, inner: bool, move: Move): Daemon
    requires NobodyWaits(d) && (move.Request? ==> move.listener < |d.queues|)
  {
    match move
    case Turn => d.(time := d.time + 1, events := d.events + [Checked(!inner)])
    case IdleScan => d.(time := d.time + |d.queues| + 2, events := d.events + [Checked(true)])
    case Request(i, stream) =>
      Handle(w, d.(time := d.time + i + 2, arrived := d.arrived[i := d.arrived[i] + [stream]],
                   events := d.events + [Checked(true)]), i, stream)
  }

  lemma {:induction false} EmptyScan(w: World, d: Daemon, i: nat, k: nat)
    requires NobodyWaits(d) && i <= k <= |d.queues|
    requires forall t :: d.time <= t < d.time + k - i ==> Quiet(w, t)
    ensures Scan(w, d, i) == Scan(w, d.(time := d.time + k - i), k)
    decreases k - i
  {
    if i < k {
      assert Quiet(w, d.time);
      EmptyScan(w, d.(time := d.time + 1), i + 1, k);
    }
  }

  lemma {:induction false} StreamArrivesAndIsServed(w: World, d: Daemon, i: nat, stream: Stream)
    requires NobodyWaits(d) && i < |d.queues| && w.tickAt(d.time) == Tick([(i, stream)], false)
    ensures var after := d.(time := d.time + 1, arrived := d.arrived[i := d.arrived[i] + [stream]]);
      Scan(w, d, i) == (Handle(w, after, i, stream), ServedOne)
  {
    var arrivals: seq<(nat, Stream)> := [(i, stream)];
    assert arrivals[1..] == [];
    assert Deliver(d.queues, arrivals) == d.queues[i := d.queues[i] + [stream]];
    assert Deliver(d.arrived, arrivals) == d.arrived[i := d.arrived[i] + [stream]];
    var now := Pass(w, d);
    assert now.queues[i] == [stream] && [stream][1..] == [];
    assert d.queues[i := [stream]][i := []] == d.queues;
  }

  /** An idle scan and the sleep after it, from just after the question. */
  lemma {:induction false} IdleScanHappens(w: World, d: Daemon)
    requires NobodyWaits(d) && forall t :: d.time <= t <= d.time + |d.queues| ==> Quiet(w, t)
    ensures Scan(w, d, 0).1 == Idle
    ensures Pass(w, Scan(w, d, 0).0) == d.(time := d.time + |d.queues| + 1)
  {
    EmptyScan(w, d, 0, |d.queues|);
    QuietPass(w, Scan(w, d, 0).0);
  }

  lemma {:induction false} RequestHappens(w: World, d: Daemon, i: nat, stream: Stream)
    requires NobodyWaits(d) && i < |d.queues| && w.tickAt(d.time + i) == Tick([(i, stream)], false)
    requires forall t :: d.time <= t < d.time + i ==> Quiet(w, t)
    ensures var after := d.(time := d.time + i + 1, arrived := d.arrived[i := d.arrived[i] + [stream]]);
      Scan(w, d, 0) == (Handle(w, after, i, stream), ServedOne)
  {
    var asked := d.(time := d.time + i);
    EmptyScan(w, d, 0, i);
    StreamArrivesAndIsServed(w, asked, i, stream);
    assert asked.(time := asked.time + 1, arrived := asked.arrived[i := asked.arrived[i] + [stream]])
        == d.(time := d.time + i + 1, arrived := d.arrived[i := d.arrived[i] + [stream]]);
  }

  lemma {:induction false} MoveHappens(w: World, d: Daemon, inner: bool, move: Move, horizon: nat)
    requires NobodyWaits(d) && Possible(w.runtime, |d.queues|, Head(d.runtime, d.time, inner), move)
    requires var h := Next(w.runtime, |d.queues|, Head(d.runtime, d.time, inner), move);
      forall t: nat :: d.time <= t < h.time ==> w.tickAt(t) == MoveTick(d.time, move, t)
    requires d.time < horizon
    ensures var h := Next(w.runtime, |d.queues|, Head(d.runtime, d.time, inner), move);
      Serve(w, d, inner, horizon) == Serve(w, Moved(w, d, inner, move), h.inner, horizon)
  {
    assert w.tickAt(d.time) == Tick([], false);
    QuietPass(w, d);
    var checked := d.(time := d.time + 1, events := d.events + [Checked(Answer(w.runtime, Head(d.runtime, d.time, inner)))]);
    assert Check(w, d).0 == checked;
    match move
    case Turn =>
    case IdleScan =>
      assert forall t :: checked.time <= t <= checked.time + |d.queues| ==> Quiet(w, t);
      IdleScanHappens(w, checked);
    case Request(i, stream) =>
      assert forall t :: checked.time <= t < checked.time + i ==> Quiet(w, t);
      RequestHappens(w, checked, i, stream);
  }

  lemma {:induction false} ScanAgrees(w: World, v: World, d: Daemon, i: nat)
    requires w.runtime == v.runtime && i <= |d.queues|
    requires forall t: nat :: t >= d.time ==> w.tickAt(t) == v.tickAt(t)
    ensures Scan(w, d, i) == Scan(v, d, i)
    decreases |d.queues| - i
  {
    if i < |d.queues| {
      var (after, accepted) := Accept(w, d, i);
      if accepted.Nobody? { ScanAgrees(w, v, after, i + 1); }
    }
  }

  /** What happens from now on depends only on the environment from now on. */
  lemma {:induction false} ServeAgrees(w: World, v: World, d: Daemon, inner: bool, horizon: nat)
    requires w.runtime == v.runtime
    requires forall t: nat :: t >= d.time ==> w.tickAt(t) == v.tickAt(t)
    ensures Serve(w, d, inner, horizon) == Serve(v, d, inner, horizon)
    decreases horizon - d.time
  {
    if d.time < horizon {
      var (checked, goOn) := Check(w, d);
      if !inner {
        if goOn { ServeAgrees(w, v, checked, true, horizon); }
      } else if !goOn {
        ServeAgrees(w, v, checked, false, horizon);
      } else {
        var (scanned, result) := Scan(w, checked, 0);
        ScanTakesTime(w, checked, 0);
        ScanAgrees(w, v, checked, 0);
        match result
        case ListenerFailed =>
        case ServedOne => ServeAgrees(w, v, scanned, false, horizon);
        case Idle => ServeAgrees(w, v, Pass(w, scanned), true, horizon);
      }
    }
  }

  /** The environment of a path: that of its first move, then that of the rest. */
  function Joined(r: Runtime, start: nat, move: Move, until: nat, later: World): World
  {
    World(r, (t: nat) => if t < until then MoveTick(start, move, t) else later.tickAt(t))
  }

  lemma MoveThenRest(r: Runtime, d: Daemon, inner: bool, move: Move, later: World, horizon: nat)
    requires NobodyWaits(d) && Possible(r, |d.queues|, Head(d.runtime, d.time, inner), move)
    requires later.runtime == r && d.time < horizon
    ensures var next := Next(r, |d.queues|, Head(d.runtime, d.time, inner), move);
      Serve(Joined(r, d.time, move, next.time, later), d, inner, horizon)
      == Serve(later, Moved(later, d, inner, move), next.inner, horizon)
  {
    var next := Next(r, |d.queues|, Head(d.runtime, d.time, inner), move);
    var w := Joined(r, d.time, move, next.time, later);
    MoveHappens(w, d, inner, move, horizon);
    assert Moved(w, d, inner, move) == Moved(later, d, inner, move);
    ServeAgrees(w, later, Moved(later, d, inner, move), next.inner, horizon);
  }

  lemma MovedMeansNext(w: World, d: Daemon, inner: bool, move: Move)
    requires NobodyWaits(d) && Possible(w.runtime, |d.queues|, Head(d.runtime, d.time, inner), move)
    ensures var after, next := Moved(w, d, inner, move), Next(w.runtime, |d.queues|, Head(d.runtime, d.time, inner), move);
      && NobodyWaits(after) && |after.queues| == |d.queues|
      && next == Head(after.runtime, after.time, next.inner)
      && after.events == d.events + MoveEvents(Head(d.runtime, d.time, inner), move)
  {
  }

  /** In this environment the daemon takes the path and gets to its end. */
  predicate Takes(w: World, d: Daemon, inner: bool, path: seq<Move>)
  {
    var h := Head(d.runtime, d.time, inner);
    var (after, result) := Serve(w, d, inner, Destination(w.runtime, |d.queues|, h, path).time);
    result == StillRunning && after.events == d.events + PathEvents(w.runtime, |d.queues|, h, path)
  }

  lemma MoveThenPath(r: Runtime, d: Daemon, inner: bool, path: seq<Move>, later: World)
    requires NobodyWaits(d) && path != [] && Possible(r, |d.queues|, Head(d.runtime, d.time, inner), path[0])
    requires later.runtime == r
    requires Takes(later, Moved(later, d, inner, path[0]), Next(r, |d.queues|, Head(d.runtime, d.time, inner), path[0]).inner, path[1..])
    ensures var next := Next(r, |d.queues|, Head(d.runtime, d.time, inner), path[0]);
      Takes(Joined(r, d.time, path[0], next.time, later), d, inner, path)
  {
    var h := Head(d.runtime, d.time, inner);
    MovedMeansNext(later, d, inner, path[0]);
    MoveThenRest(r, d, inner, path[0], later, Destination(r, |d.queues|, h, path).time);
    var rest := PathEvents(r, |d.queues|, Next(r, |d.queues|, h, path[0]), path[1..]);
    assert d.events + MoveEvents(h, path[0]) + rest == d.events + (MoveEvents(h, path[0]) + rest);
  }

  /** Every path through the loop heads that the runtime's answers allow is
      taken by the daemon in some environment. */
  lemma {:induction false} PathsAreServed(r: Runtime, d: Daemon, inner: bool, path: seq<Move>) returns (w: World)
    requires NobodyWaits(d) && ValidPath(r, |d.queues|, Head(d.runtime, d.time, inner), path)
    ensures w.runtime == r && Takes(w, d, inner, path)
    decreases |path|
  {
    w := World(r, _ => Tick([], false));
    if path != [] {
      var next := Next(r, |d.queues|, Head(d.runtime, d.time, inner), path[0]);
      var moved := Moved(w, d, inner, path[0]);
      MovedMeansNext(w, d, inner, path[0]);
      var later := PathsAreServed(r, moved, next.inner, path[1..]);
      assert Moved(later, d, inner, path[0]) == moved;
      MoveThenPath(r, d, inner, path, later);
      w := Joined(r, d.time, path[0], next.time, later);
    }
  }

  // ---------- stopping ----------

  predicate NoRequestAfterStop(events: seq<Event>, from: nat)
  {
    forall a, b :: from <= a < b < |events| && events[a] == Checked(false) ==> !events[b].Served?
  }

  /** In no run from this start does the daemon handle a request after
      `should_continue` has answered no. */
  ghost predicate StopIsHeeded(r: Runtime, state: RuntimeState, count: nat)
  {
    forall w: World, horizon: nat ::
      w.runtime == r ==> NoRequestAfterStop(Run(w, Bound(count, state), horizon).0.events, 0)
  }

  /** The inner loop gets a no and the next two answers are yes. */
  predicate Relapses(r: Runtime, h: Head)
  {
    && h.inner && !Answer(r, h)
    && r.shouldContinue(h.runtime, h.time + 1) && r.shouldContinue(h.runtime, h.time + 2)
  }

  predicate LeadsToRelapse(r: Runtime, count: nat, h: Head, path: seq<Move>)
  {
    ValidPath(r, count, h, path) && Relapses(r, Destination(r, count, h, path))
  }

  ghost predicate NeverRelapsesFrom(r: Runtime, count: nat, h: Head)
  {
    forall path :: !LeadsToRelapse(r, count, h, path)
  }

  /** There is a listener, the runtime starts, and its own answers allow a path
      from the first head to one where they relapse. */
  ghost predicate MayRelapse(r: Runtime, state: RuntimeState, count: nat)
  {
    var (begun, started) := r.start(state);
    count > 0 && started && !NeverRelapsesFrom(r, count, Head(begun, 0, false))
  }

  lemma NeverRelapsesNext(r: Runtime, count: nat, h: Head, move: Move)
    requires NeverRelapsesFrom(r, count, h) && Possible(r, count, h, move)
    ensures NeverRelapsesFrom(r, count, Next(r, count, h, move))
    ensures !Relapses(r, h)
  {
    assert !LeadsToRelapse(r, count, h, []);
    forall path ensures !LeadsToRelapse(r, count, Next(r, count, h, move), path) {
      assert ([move] + path)[1..] == path;
      assert !LeadsToRelapse(r, count, h, [move] + path);
    }
  }

  /** A scan is one of the moves. */
  lemma {:induction false} ScanIsMove(w: World, d: Daemon, i: nat)
    requires i <= |d.queues|
    ensures var (after, result) := Scan(w, d, i);
      && (result.Idle? ==> after.runtime == d.runtime && after.time == d.time + |d.queues| - i)
      && (result.ServedOne? ==>
            && |after.handled| == |d.handled| + 1
            && var h := after.handled[|d.handled|];
            && i <= h.listener < |d.queues| && after.time == d.time + h.listener - i + 1
            && after.runtime == w.runtime.handle(d.runtime, h.listener, h.stream))
    decreases |d.queues| - i
  {
    if i < |d.queues| {
      var (after, accepted) := Accept(w, d, i);
      if accepted.Nobody? { ScanIsMove(w, after, i + 1); }
    }
  }

  /** After a no to the inner loop that is no relapse, only questions follow. */
  lemma {:induction false} OnlyQuestionsAfterNo(w: World, d: Daemon, horizon: nat)
    requires NeverRelapsesFrom(w.runtime, |d.queues|, Head(d.runtime, d.time, true))
    requires !Answer(w.runtime, Head(d.runtime, d.time, true))
    ensures var events := Serve(w, d, true, horizon).0.events;
      d.events <= events && forall k :: |d.events| <= k < |events| ==> events[k].Checked?
    decreases horizon - d.time
  {
    if d.time < horizon {
      var count, h := |d.queues|, Head(d.runtime, d.time, true);
      var checked := Check(w, d).0;
      NeverRelapsesNext(w.runtime, count, h, Turn);
      if checked.time < horizon {
        var (again, goOn) := Check(w, checked);
        if goOn {
          NeverRelapsesNext(w.runtime, count, Head(d.runtime, d.time + 1, false), Turn);
          OnlyQuestionsAfterNo(w, again, horizon);
        }
      }
    }
  }

  lemma NeverRelapsesAfterScan(w: World, d: Daemon)
    requires var h := Head(d.runtime, d.time, true);
      NeverRelapsesFrom(w.runtime, |d.queues|, h) && Answer(w.runtime, h)
    ensures var (scanned, result) := Scan(w, Check(w, d).0, 0);
      && |scanned.queues| == |d.queues| && scanned.time > d.time
      && (result.ServedOne? ==> NeverRelapsesFrom(w.runtime, |d.queues|, Head(scanned.runtime, scanned.time, false)))
      && (result.Idle? ==> NeverRelapsesFrom(w.runtime, |d.queues|, Head(scanned.runtime, scanned.time + 1, true)))
  {
    var checked, h := Check(w, d).0, Head(d.runtime, d.time, true);
    var (scanned, result) := Scan(w, checked, 0);
    ScanTakesTime(w, checked, 0);
    ScanIsMove(w, checked, 0);
    if result.ServedOne? {
      var served := scanned.handled[|d.handled|];
      NeverRelapsesNext(w.runtime, |d.queues|, h, Request(served.listener, served.stream));
    } else if result.Idle? {
      NeverRelapsesNext(w.runtime, |d.queues|, h, IdleScan);
    }
  }

  lemma {:induction false} ServeHeedsStop(w: World, d: Daemon, inner: bool, horizon: nat)
    requires NeverRelapsesFrom(w.runtime, |d.queues|, Head(d.runtime, d.time, inner))
    ensures var events := Serve(w, d, inner, horizon).0.events;
      d.events <= events && NoRequestAfterStop(events, |d.events|)
    decreases horizon - d.time
  {
    if d.time < horizon {
      var (checked, goOn) := Check(w, d);
      if !inner {
        if goOn {
          NeverRelapsesNext(w.runtime, |d.queues|, Head(d.runtime, d.time, inner), Turn);
          ServeHeedsStop(w, checked, true, horizon);
        }
      } else if !goOn {
        OnlyQuestionsAfterNo(w, d, horizon);
      } else {
        var (scanned, result) := Scan(w, checked, 0);
        ScanAddsEvents(w, checked, 0);
        NeverRelapsesAfterScan(w, d);
        match result
        case ListenerFailed =>
        case ServedOne => ServeHeedsStop(w, scanned, false, horizon);
        case Idle => ServeHeedsStop(w, Pass(w, scanned), true, horizon);
      }
    }
  }

  lemma {:induction false} NoListenersNoRequests(w: World, d: Daemon, inner: bool, horizon: nat)
    requires d.queues == []
    ensures var events := Serve(w, d, inner, horizon).0.events;
      d.events <= events && forall k :: |d.events| <= k < |events| ==> events[k].Checked?
    decreases horizon - d.time
  {
    if d.time < horizon {
      var (checked, goOn) := Check(w, d);
      if !inner {
        if goOn { NoListenersNoRequests(w, checked, true, horizon); }
      } else if !goOn {
        NoListenersNoRequests(w, checked, false, horizon);
      } else {
        NoListenersNoRequests(w, Pass(w, checked), true, horizon);
      }
    }
  }

  lemma RunHeedsStop(w: World, state: RuntimeState, count: nat, horizon: nat)
    requires !MayRelapse(w.runtime, state, count)
    ensures NoRequestAfterStop(Run(w, Bound(count, state), horizon).0.events, 0)
  {
    var (begun, started) := w.runtime.start(state);
    var d := Bound(count, state);
    var first := d.(runtime := begun, events := d.events + [Started(started)]);
    if started {
      if count == 0 {
        NoListenersNoRequests(w, first, false, horizon);
      } else {
        ServeHeedsStop(w, first, false, horizon);
      }
    }
  }

  lemma RelapseRun(r: Runtime, state: RuntimeState, count: nat) returns (w: World, horizon: nat)
    requires MayRelapse(r, state, count)
    ensures w.runtime == r && !NoRequestAfterStop(Run(w, Bound(count, state), horizon).0.events, 0)
  {
    var begun := r.start(state).0;
    var start := Head(begun, 0, false);
    var path :| LeadsToRelapse(r, count, start, path);
    var relapse := Destination(r, count, start, path);
    var h1 := Next(r, count, relapse, Turn);
    var h2 := Next(r, count, h1, Turn);
    var rest := [Turn, Turn, Request(0, 0)];
    assert rest[1..] == [Turn, Request(0, 0)] && rest[1..][1..] == [Request(0, 0)] && rest[1..][1..][1..] == [];
    PathsCompose(r, count, start, path, rest);
    assert PathEvents(r, count, relapse, rest) == [Checked(false), Checked(true), Checked(true), Served(0, 0)];
    var d := Bound(count, state);
    var first := d.(runtime := begun, events := d.events + [Started(true)]);
    w := PathsAreServed(r, first, false, path + rest);
    horizon := Destination(r, count, start, path + rest).time;
    var events := Run(w, d, horizon).0.events;
    var n := |first.events + PathEvents(r, count, start, path)|;
    assert events[n] == Checked(false) && events[n + 3] == Served(0, 0);
  }

  /** The documented stop boundary, over all runs from a given start: nothing is
      handled after a no, in any environment, exactly if the runtime's own
      answers allow no path to a relapse. */
  lemma StopIsHeededIff(r: Runtime, state: RuntimeState, count: nat)
    ensures StopIsHeeded(r, state, count) <==> !MayRelapse(r, state, count)
  {
    if MayRelapse(r, state, count) {
      var w, horizon := RelapseRun(r, state, count);
    } else {
      forall w: World, horizon: nat | w.runtime == r
        ensures NoRequestAfterStop(Run(w, Bound(count, state), horizon).0.events, 0)
      {
        RunHeedsStop(w, state, count, horizon);
      }
    }
  }

  /** A runtime whose no lasts for at least one of the next two questions, as any
      shutdown flag does, is safe from every start. */
  lemma LastingNoIsEnough(r: Runtime, state: RuntimeState, count: nat)
    requires forall s, t: nat :: !r.shouldContinue(s, t) ==> !(r.shouldContinue(s, t + 1) && r.shouldContinue(s, t + 2))
    ensures StopIsHeeded(r, state, count)
  {
    var start := Head(r.start(state).0, 0, false);
    forall path ensures !LeadsToRelapse(r, count, start, path) {
      var h := Destination(r, count, start, path);
      assert !Answer(r, h) ==> !(r.shouldContinue(h.runtime, h.time + 1) && r.shouldContinue(h.runtime, h.time + 2));
    }
    StopIsHeededIff(r, state, count);
  }

  /** A runtime that says no once, at its second question. */
  function OneNo(): Runtime
  {
    Runtime((_, t) => t != 1, (state, _, _) => state, (_, _, _) => None, state => (state, true), state => (state, true))
  }

  /** One such run: a stream arrives while the first question is asked, the inner
      loop takes the no, the outer loop asks again, and the stream is handled. */
  lemma RelapseIsServed(state: RuntimeState, stream: Stream)
    ensures var w := World(OneNo(), t => if t == 0 then Tick([(0, stream)], false) else Tick([], false));
      Run(w, Bound(1, state), 5).0.events ==
        [Started(true), Checked(true), Checked(false), Checked(true), Checked(true), Served(0, stream)]
  {
    var w := World(OneNo(), t => if t == 0 then Tick([(0, stream)], false) else Tick([], false));
    var d0 := Bound(1, state).(events := [Started(true)]);
    var arrivals: seq<(nat, Stream)> := [(0, stream)];
    assert arrivals[1..] == [];
    assert Bound(1, state).events + [Started(true)] == [Started(true)];
    assert d0.queues == d0.arrived == [[]];
    var one: seq<seq<Stream>> := [[]];
    assert one[0] + [stream] == [stream];
    assert one[0 := [stream]] == [[stream]];
    assert Deliver(one, arrivals) == Deliver([[stream]], []);
    var d1 := Check(w, d0).0;
    var d2 := Check(w, d1).0;
    var d3 := Check(w, d2).0;
    var d4 := Check(w, d3).0;
    var d5 := Scan(w, d4, 0).0;
    assert d4.queues == [[stream]] && d4.time == 4;
    assert Scan(w, d4, 0).1 == ServedOne && d5.time == 5;
    assert Serve(w, d5, false, 5) == (d5, StillRunning);
    assert Serve(w, d3, true, 5).0 == d5;
    assert Serve(w, d2, false, 5).0 == d5;
    assert Serve(w, d1, true, 5).0 == d5;
    assert Serve(w, d0, false, 5).0 == d5;
  }
}
