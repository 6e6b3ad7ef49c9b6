/** GitCommandAdmission (src/server/git-worktrees.ts) as an object; a command is known by its number. */
module GitCommandAdmissions {
  import G = GitAdmission

  class GitCommandAdmission {
    const limits: G.Limits
    var operational: seq<nat>
    var background: seq<nat>
    var remote: seq<nat>
    var controllers: map<nat, G.Priority>
    var running: int
    var remoteRunning: int
    var closed: bool
    var submitted: nat
    var settled: map<nat, G.Outcome>

    ghost function State(): G.State
      reads this
    {
      G.State(operational, background, remote, controllers, running, remoteRunning, closed, submitted, settled)
    }

    /** The counters count and respect the limits, every command has one place, and none waits that could run. */
    ghost predicate Valid()
      reads this
    {
      G.Inv(limits, State())
    }

    constructor (limit: nat := 4, maxQueued: nat := 128, remoteLimit: nat := 1)
      ensures limits == G.Limits(limit, maxQueued, remoteLimit) && State() == G.INITIAL
      ensures Valid()
    {
      limits := G.Limits(limit, maxQueued, remoteLimit);
      operational, background, remote, controllers := [], [], [], map[];
      running, remoteRunning, closed, submitted, settled := 0, 0, false, 0, map[];
      new;
      G.InitialHolds(limits);
    }

    /** A job is shifted from the first queue that may be served, until none may or the limit is reached. */
    method Pump()
      modifies this`operational, this`background, this`remote, this`controllers, this`running, this`remoteRunning
      ensures State() == G.Pump(limits, old(State()))
    {
      while !closed && running < limits.running
        invariant G.Pump(limits, State()) == G.Pump(limits, old(State()))
        decreases G.Waiting(State())
      {
        ghost var before := State();
        var job, priority;
        if operational != [] {
          job, priority, operational := operational[0], G.Operational, operational[1..];
        } else if remoteRunning < limits.remote && remote != [] {
          job, priority, remote := remote[0], G.Remote, remote[1..];
        } else if background != [] {
          job, priority, background := background[0], G.Background, background[1..];
        } else {
          return;
        }
        running := running + 1;
        if priority.Remote? { remoteRunning := remoteRunning + 1; }
        controllers := controllers[job := priority];
        assert priority == G.Choice(limits, before) && State() == G.Start(before, priority);
      }
    }

    /** Whether the command was taken; a refused one is settled at once. */
    method Run(priority: G.Priority) returns (accepted: bool)
      requires Valid()
      modifies this
      ensures State() == G.Next(limits, old(State()), G.Submits(priority))
      ensures accepted <==>
        !old(closed) && (match priority
                         case Operational => |old(operational)|
                         case Background => |old(background)|
                         case Remote => |old(remote)|) < limits.queued
      ensures var id := old(submitted);
              if accepted then G.WaitsAs(State(), priority, id) || G.RunsAs(State(), priority, id)
              else id in settled && settled[id] == G.Refused && id !in controllers
      ensures Valid()
    {
      G.StepKeeps(limits, State(), G.Submits(priority));
      G.SubmittedAs(limits, State(), priority);
      accepted := Submit(priority);
    }

    method Submit(priority: G.Priority) returns (accepted: bool)
      modifies this
      ensures State() == G.Submit(limits, old(State()), priority)
      ensures accepted <==> !old(closed) && |G.Queue(old(State()), priority)| < limits.queued
    {
      var id := submitted;
      submitted := submitted + 1;
      var queue := match priority
        case Operational => operational
        case Remote => remote
        case Background => background;
      if closed || |queue| >= limits.queued {
        settled := settled[id := G.Refused];
        return false;
      }
      Append(priority, id);
      Pump();
      return true;
    }

    method Append(priority: G.Priority, id: nat)
      modifies this`operational, this`remote, this`background
      ensures State() == G.WithQueue(old(State()), priority, G.Queue(old(State()), priority) + [id])
    {
      match priority {
        case Operational => operational := operational + [id];
        case Remote => remote := remote + [id];
        case Background => background := background + [id];
      }
    }

    /** The `finally` of a command that returned or failed. */
    method Complete(id: nat)
      requires Valid()
      requires id in controllers
      modifies this
      ensures State() == G.Next(limits, old(State()), G.Completes(id))
      ensures Valid()
      ensures id in settled && settled[id] == G.Completed && id !in controllers
    {
      G.StepKeeps(limits, State(), G.Completes(id));
      G.CompletionSettles(limits, State(), id);
      Release(id);
    }

    method Release(id: nat)
      requires id in controllers
      modifies this
      ensures State() == G.Next(limits, old(State()), G.Completes(id))
    {
      var priority := controllers[id];
      settled := settled[id := G.Completed];
      controllers := controllers - {id};
      running := running - 1;
      if priority.Remote? { remoteRunning := remoteRunning - 1; }
      Pump();
    }

    method Close()
      requires Valid()
      modifies this
      ensures State() == G.Next(limits, old(State()), G.Closes)
      ensures Valid()
      ensures closed && operational == [] && remote == [] && background == []
      ensures G.AbandonsWaiting(old(State()), State())
    {
      G.StepKeeps(limits, State(), G.Closes);
      G.CloseAbandons(State());
      Abandon();
    }

    method Abandon()
      modifies this
      ensures State() == G.Close(old(State()))
    {
      closed := true;
      var jobs := operational + remote + background;
      settled := settled + map id | id in jobs :: G.Abandoned;
      operational, remote, background := [], [], [];
    }
  }
}
