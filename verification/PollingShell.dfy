/** The polling daemon as the code is written: one object whose methods take
    streams from its listeners, change the runtime and append to the error log,
    in three nested loops. Each method is proved against the function of the same
    purpose in `PollingDaemon`. */
module PollingShell {
  import opened PollingDaemon

  class BoundMultiListenerDaemon {
    const world: World
    var time: nat
    var arrived: seq<seq<Stream>>
    var queues: seq<seq<Stream>>
    var runtime: RuntimeState
    var handled: seq<Handled>
    var log: seq<LogEntry>
    var events: seq<Event>

    ghost function State(): Daemon
      reads this
    {
      Daemon(time, arrived, queues, runtime, handled, log, events)
    }

    constructor (world: World, count: nat, runtime: RuntimeState)
      ensures this.world == world && State() == Bound(count, runtime)
    {
      this.world := world;
      this.runtime := runtime;
      time, handled, log, events := 0, [], [], [];
      arrived, queues := seq(count, _ => []), seq(count, _ => []);
    }

    /** One instant of the outside world: also the whole effect of `sleep`. */
    method Sleep()
      modifies this
      ensures State() == Pass(world, old(State()))
    {
      var arrivals := world.tickAt(time).arrivals;
      arrived, queues := Deliver(arrived, arrivals), Deliver(queues, arrivals);
      time := time + 1;
    }

    method AcceptNextStream(index: nat) returns (accepted: Accepted)
      requires index < |queues|
      modifies this
      ensures (State(), accepted) == Accept(world, old(State()), index)
      ensures accepted.AcceptError? <==> world.tickAt(old(time)).acceptFails
    {
      var fails := world.tickAt(time).acceptFails;
      Sleep();
      if fails {
        accepted := AcceptError;
        events := events + [AcceptFailed(index)];
      } else if queues[index] == [] {
        accepted := Nobody;
      } else {
        accepted := Accepted.Stream(queues[index][0]);
        queues := queues[index := queues[index][1..]];
      }
    }

    method HandleStream(index: nat, stream: Stream)
      modifies this
      ensures State() == Handle(world, old(State()), index, stream)
    {
      var failure := world.runtime.failure(runtime, index, stream);
      handled := handled + [Handled(index, stream, runtime)];
      events := events + [Served(index, stream)];
      if failure.Some? {
        log := log + [LogEntry(index, failure.value)];
      }
      runtime := world.runtime.handle(runtime, index, stream);
    }

    method TryServeNextStream() returns (result: ScanResult)
      modifies this
      ensures (State(), result) == Scan(world, old(State()), 0)
    {
      for index := 0 to |queues|
        invariant |queues| == |old(queues)|
        invariant Scan(world, State(), index) == Scan(world, old(State()), 0)
      {
        var accepted := AcceptNextStream(index);
        match accepted {
          case AcceptError => return ListenerFailed;
          case Stream(stream) =>
            HandleStream(index, stream);
            return ServedOne;
          case Nobody =>
        }
      }
      result := Idle;
    }

    method ShouldContinue() returns (goOn: bool)
      modifies this
      ensures (State(), goOn) == Check(world, old(State()))
    {
      goOn := world.runtime.shouldContinue(runtime, time);
      events := events + [Checked(goOn)];
      Sleep();
    }

    /** `serve_next_stream`: `Finished` is its `Ok`, which says either that a
        request was handled or that the runtime asked to stop. */
    method ServeNextStream(horizon: nat) returns (result: ServeResult)
      modifies this
      ensures time >= old(time) && (result.Finished? ==> time > old(time))
      ensures Serve(world, old(State()), true, horizon)
           == if result.Finished? then Serve(world, State(), false, horizon) else (State(), result)
    {
      while time < horizon
        invariant time >= old(time)
        invariant Serve(world, old(State()), true, horizon) == Serve(world, State(), true, horizon)
        decreases horizon - time
      {
        var goOn := ShouldContinue();
        if !goOn {
          return Finished;
        }
        ScanTakesTime(world, State(), 0);
        var scanned := TryServeNextStream();
        match scanned {
          case ListenerFailed => return Failed;
          case ServedOne => return Finished;
          case Idle => Sleep();
        }
      }
      result := StillRunning;
    }

    method ServeStreams(horizon: nat) returns (result: ServeResult)
      modifies this
      ensures (State(), result) == Serve(world, old(State()), false, horizon)
    {
      while time < horizon
        invariant Serve(world, old(State()), false, horizon) == Serve(world, State(), false, horizon)
        decreases horizon - time
      {
        var goOn := ShouldContinue();
        if !goOn {
          return Finished;
        }
        var served := ServeNextStream(horizon);
        if !served.Finished? {
          return served;
        }
      }
      result := StillRunning;
    }

    method Run(horizon: nat) returns (result: RunResult)
      modifies this
      ensures (State(), result) == PollingDaemon.Run(world, old(State()), horizon)
      ensures FollowsRuntime(world.runtime, old(State()), State(), result)
    {
      RunFollowsRuntime(world, State(), horizon);
      var (begun, started) := world.runtime.start(runtime);
      runtime, events := begun, events + [Started(started)];
      if !started {
        return StartError;
      }
      var served := ServeStreams(horizon);
      if served.StillRunning? {
        return Unfinished;
      }
      var (ended, stopped) := world.runtime.stop(runtime);
      runtime, events := ended, events + [Stopped(stopped)];
      if served.Failed? {
        return ListenerError;
      }
      result := if stopped then RanOk else StopError;
    }
  }
}
