/** The webdriver-manager launcher: spawn `update`, and once that process has
    closed, spawn `start` with the same binary. This sequencing rests on a
    test the suite marks as skipped (test/main.js:192), so its evidence is
    weaker than that of the protractor stream. */
module Webdriver {
  import Paths

  const UpdateArgs: seq<string> := ["update"]
  const StartArgs: seq<string> := ["start"]

  /** Nothing spawned yet; `update` running; `start` spawned (serving). */
  datatype Phase = Idle | Updating | Serving

  /** What the launcher observed and did, in order. */
  datatype Event = Spawned(command: string, args: seq<string>) | Closed

  /** The log each phase has reached: only `update` while updating; while
      serving, `update`, its close, `start`, then only closes. */
  predicate LogShape(phase: Phase, manager: string, log: seq<Event>)
  {
    match phase
    case Idle => log == []
    case Updating => log == [Spawned(manager, UpdateArgs)]
    case Serving =>
      |log| >= 3 && log[..3] == [Spawned(manager, UpdateArgs), Closed, Spawned(manager, StartArgs)] &&
      forall i :: 3 <= i < |log| ==> log[i] == Closed
  }

  /** The argument vectors of the spawns in a log, in order. */
  function SpawnedArgs(log: seq<Event>): seq<seq<string>>
  {
    if log == [] then []
    else (if log[0].Spawned? then [log[0].args] else []) + SpawnedArgs(log[1..])
  }

  /** Every `start` spawn comes after an `update` spawn and after a close
      that follows it. */
  predicate StartOnlyAfterUpdateClosed(log: seq<Event>)
  {
    forall i :: 0 <= i < |log| && log[i].Spawned? && log[i].args == StartArgs ==>
      exists j, k :: 0 <= j < k < i && log[j].Spawned? && log[j].args == UpdateArgs && log[k] == Closed
  }

  lemma {:induction false} OnlyClosesSpawnNothing(log: seq<Event>)
    requires forall i :: 0 <= i < |log| ==> log[i] == Closed
    ensures SpawnedArgs(log) == []
  {
    if log != [] {
      OnlyClosesSpawnNothing(log[1..]);
    }
  }

  /** In every reachable log: all spawns run the manager binary, the spawns
      are `update` and then at most one `start`, and `start` is never spawned
      before `update` has closed. */
  lemma LogShapeOrdersSpawns(phase: Phase, manager: string, log: seq<Event>)
    requires LogShape(phase, manager, log)
    ensures forall i :: 0 <= i < |log| && log[i].Spawned? ==> log[i].command == manager
    ensures |SpawnedArgs(log)| <= 2 && SpawnedArgs(log) == [UpdateArgs, StartArgs][..|SpawnedArgs(log)|]
    ensures StartOnlyAfterUpdateClosed(log)
  {
    if phase == Serving {
      var rest := log[3..];
      OnlyClosesSpawnNothing(rest);
      assert log[2..][1..] == rest;
      assert SpawnedArgs(log[2..]) == [StartArgs];
      assert log[1..][1..] == log[2..];
      assert SpawnedArgs(log[1..]) == [StartArgs];
      assert SpawnedArgs(log) == [UpdateArgs, StartArgs];
      forall i | 0 <= i < |log| && log[i].Spawned? && log[i].args == StartArgs
        ensures exists j, k :: 0 <= j < k < i && log[j].Spawned? && log[j].args == UpdateArgs && log[k] == Closed
      {
        assert i == 2;
        assert log[0].Spawned? && log[0].args == UpdateArgs && log[1] == Closed;
      }
    } else if phase == Updating {
      assert log[1..] == [];
    }
  }

  class WebdriverLauncher {
    /** The manager binary, resolved once from the working directory and the
        platform. */
    const manager: string
    var phase: Phase
    var log: seq<Event>

    ghost predicate Valid()
      reads this
    {
      LogShape(phase, manager, log)
    }

    constructor (cwd: string, platform: string)
      ensures Valid()
      ensures manager == Paths.ManagerPath(cwd, platform)
      ensures phase == Idle && log == []
    {
      manager := Paths.ManagerPath(cwd, platform);
      phase := Idle;
      log := [];
    }

    /** Starts the launcher: spawns `update`, once. */
    method Launch() returns (spawned: bool)
      requires Valid()
      modifies this
      ensures Valid()
      ensures spawned <==> old(phase) == Idle
      ensures phase == if spawned then Updating else old(phase)
      ensures log == if spawned then old(log) + [Spawned(manager, UpdateArgs)] else old(log)
    {
      spawned := phase == Idle;
      if spawned {
        log := log + [Spawned(manager, UpdateArgs)];
        phase := Updating;
      }
    }

    /** The running process closed: if it was `update`, spawn `start`. The
        close of `start` itself is recorded and triggers nothing. */
    method OnClose() returns (spawned: bool)
      requires Valid() && phase != Idle
      modifies this
      ensures Valid()
      ensures spawned <==> old(phase) == Updating
      ensures phase == Serving
      ensures log == old(log) + [Closed] + (if spawned then [Spawned(manager, StartArgs)] else [])
    {
      spawned := phase == Updating;
      if spawned {
        log := log + [Closed, Spawned(manager, StartArgs)];
        phase := Serving;
      } else {
        log := log + [Closed];
        assert log[..3] == old(log)[..3];
      }
    }
  }

  /** `webdriver()` followed by the close of the first process: `update` is
      spawned first, then `start`, both on webdriver-manager with the
      platform's suffix. */
  method UpdateThenStart(cwd: string, platform: string) returns (log: seq<Event>)
    ensures log == [Spawned(Paths.ManagerPath(cwd, platform), ["update"]), Closed,
                    Spawned(Paths.ManagerPath(cwd, platform), ["start"])]
    ensures Paths.Basename(log[0].command) == "webdriver-manager" + Paths.ExecutableSuffix(platform)
  {
    var launcher := new WebdriverLauncher(cwd, platform);
    var first := launcher.Launch();
    var second := launcher.OnClose();
    log := launcher.log;
  }
}
