/** The per-request log coordinator as a transition system.  Every step is one atomic action of one
    goroutine: a critical section under the mutex, a channel operation, a WaitGroup operation, or the
    start or the end of a write function.  Steps of different goroutines interleave freely. */
module LogTasks {
  import opened Strings

  /** How far a tracked task has come.  Deferred calls run last-in first-out: the map entry is cleaned
      up before the done channel is closed, and that before the WaitGroup is told. */
  datatype Pc =
    | Registered  // linked behind its predecessor (first critical section)
    | Added       // counted by the WaitGroup
    | Counted     // counted in `count` (second critical section)
    | Waiting     // the goroutine runs
    | Holding     // a response task has the channel it waits for
    | Running     // the write function has started, or the response may be saved
    | Ran         // the function has returned
    | Cleaned     // `count` and the map entry are settled
    | Closed      // the done channel is closed
    | Finished    // the WaitGroup is settled

  function Rank(pc: Pc): nat {
    match pc
    case Registered => 0
    case Added => 1
    case Counted => 2
    case Waiting => 3
    case Holding => 4
    case Running => 5
    case Ran => 6
    case Cleaned => 7
    case Closed => 8
    case Finished => 9
  }

  /** A write registered by `TrackRequestWrite`, or the response task of `recordResponse`, whose INSERT
      is the write `insert` and which saw `seen` tasks when it asked for the channel `channel`.  A task
      is known by its position; a channel by the write that closes it. */
  datatype Task =
    | Write(req: string, prev: Option<nat>, pc: Pc)
    | Respond(req: string, insert: nat, channel: Option<nat>, seen: nat, timedOut: bool, pc: Pc)

  datatype LogEvent =
    | Begin(req: string, task: nat)
    | End(req: string, task: nat)
    | Update(req: string, task: nat)

  datatype State = State(tasks: seq<Task>, last: map<string, nat>, count: int, wg: int, log: seq<LogEvent>)

  const INIT := State([], map[], 0, 0, [])

  datatype Action =
    | RegisterWrite(req: string)
    | TrackResponse(insert: nat)
    | Advance(task: nat)
    | Timeout(task: nat)
    | Skip(task: nat)

  predicate IsClosed(s: State, channel: Option<nat>) {
    channel.Some? ==> channel.value < |s.tasks| && Rank(s.tasks[channel.value].pc) >= Rank(Closed)
  }

  function Lookup(last: map<string, nat>, req: string): Option<nat> {
    if req in last then Some(last[req]) else None
  }

  function At(s: State, t: nat, pc: Pc): State
    requires t < |s.tasks|
  {
    s.(tasks := s.tasks[t := s.tasks[t].(pc := pc)])
  }

  /** The next step of task `t`, if it is not blocked. */
  function AdvanceTask(s: State, t: nat): Option<State>
    requires t < |s.tasks|
  {
    var task := s.tasks[t];
    match task.pc
    case Registered => Some(At(s, t, Added).(wg := s.wg + 1))
    case Added => Some(At(s, t, Counted).(count := s.count + 1))
    case Counted => Some(At(s, t, Waiting))
    case Waiting =>
      if task.Write? then
        if IsClosed(s, task.prev) then Some(At(s, t, Running).(log := s.log + [Begin(task.req, t)])) else None
      else
        Some(s.(tasks := s.tasks[t := task.(channel := Lookup(s.last, task.req), seen := |s.tasks|, pc := Holding)]))
    case Holding =>
      if task.Respond? && IsClosed(s, task.channel) then Some(At(s, t, Running)) else None
    case Running =>
      Some(At(s, t, Ran).(log := s.log + [if task.Write? then End(task.req, t) else Update(task.req, t)]))
    case Ran =>
      var last := if task.Write? && Lookup(s.last, task.req) == Some(t) then s.last - {task.req} else s.last;
      Some(At(s, t, Cleaned).(count := s.count - 1, last := last))
    case Cleaned =>
      if task.Write? then Some(At(s, t, Closed)) else Some(At(s, t, Finished).(wg := s.wg - 1))
    case Closed => Some(At(s, t, Finished).(wg := s.wg - 1))
    case Finished => None
  }

  /** One step of the system, if it is enabled. */
  function Step(s: State, a: Action): Option<State> {
    match a
    case RegisterWrite(req) =>
      Some(s.(tasks := s.tasks + [Write(req, Lookup(s.last, req), Registered)], last := s.last[req := |s.tasks|]))
    case TrackResponse(insert) =>
      if insert < |s.tasks| && s.tasks[insert].Write? then
        Some(s.(tasks := s.tasks + [Respond(s.tasks[insert].req, insert, None, 0, false, Added)], wg := s.wg + 1))
      else None
    case Advance(t) => if t < |s.tasks| then AdvanceTask(s, t) else None
    case Timeout(t) =>
      if t < |s.tasks| && s.tasks[t].Respond? && s.tasks[t].pc == Holding then
        Some(s.(tasks := s.tasks[t := s.tasks[t].(timedOut := true, pc := Ran)]))
      else None
    case Skip(t) =>
      if t < |s.tasks| && s.tasks[t].Respond? && s.tasks[t].pc == Running then Some(At(s, t, Ran)) else None
  }

  /** A run from the initial state. */
  function Exec(actions: seq<Action>): Option<State> {
    if actions == [] then Some(INIT)
    else
      match Exec(actions[..|actions| - 1])
      case None => None
      case Some(s) => Step(s, actions[|actions| - 1])
  }

  // ----- What every step keeps -----

  predicate IsWrite(tasks: seq<Task>, t: nat, req: string) {
    t < |tasks| && tasks[t].Write? && tasks[t].req == req
  }

  /** The function of write `t` has returned. */
  predicate HasRun(tasks: seq<Task>, t: nat) {
    t < |tasks| && Rank(tasks[t].pc) >= Rank(Ran)
  }

  /** All writes of `req` among the first `n` tasks have run. */
  ghost predicate AllRun(tasks: seq<Task>, req: string, n: nat) {
    forall u: nat :: u < n && IsWrite(tasks, u, req) ==> HasRun(tasks, u)
  }

  /** `t` is the newest write of `req` among the first `n` tasks. */
  ghost predicate IsNewest(tasks: seq<Task>, req: string, t: nat, n: nat) {
    && t < n && IsWrite(tasks, t, req)
    && forall u: nat :: u < n && IsWrite(tasks, u, req) ==> u <= t
  }

  /** A channel found for `req` among the first `n` tasks: of the newest write, or none at all when
      every write has run. */
  ghost predicate ChannelOk(tasks: seq<Task>, req: string, channel: Option<nat>, n: nat) {
    match channel
    case Some(p) => IsNewest(tasks, req, p, n)
    case None => AllRun(tasks, req, n)
  }

  ghost predicate TaskOk(tasks: seq<Task>, t: nat)
    requires t < |tasks|
  {
    match tasks[t]
    case Write(req, prev, pc) =>
      && ChannelOk(tasks, req, prev, t)
      && (Rank(pc) >= Rank(Running) ==> AllRun(tasks, req, t))
      && pc != Holding
    case Respond(req, insert, channel, seen, timedOut, pc) =>
      && insert < t && IsWrite(tasks, insert, req)
      && (Rank(pc) >= Rank(Holding) ==> t < seen <= |tasks| && ChannelOk(tasks, req, channel, seen))
      && (Rank(pc) >= Rank(Running) && !timedOut ==> AllRun(tasks, req, seen))
      && (timedOut ==> Rank(pc) >= Rank(Ran))
      && pc != Registered && pc != Closed
  }

  ghost predicate TasksOk(tasks: seq<Task>) {
    forall t: nat :: t < |tasks| ==> TaskOk(tasks, t)
  }

  ghost predicate IsUncleanedNewest(tasks: seq<Task>, t: nat) {
    && t < |tasks| && tasks[t].Write? && Rank(tasks[t].pc) < Rank(Cleaned)
    && IsNewest(tasks, tasks[t].req, t, |tasks|)
  }

  /** The map holds exactly the newest write of every request, as long as it has not been cleaned up. */
  ghost predicate LastOk(tasks: seq<Task>, last: map<string, nat>) {
    && (forall req :: req in last ==>
          IsNewest(tasks, req, last[req], |tasks|) && Rank(tasks[last[req]].pc) < Rank(Cleaned))
    && (forall t: nat :: IsUncleanedNewest(tasks, t) ==> tasks[t].req in last && last[tasks[t].req] == t)
  }

  // ----- Tasks only move forward -----

  predicate SameTask(a: Task, b: Task) {
    && a.req == b.req && Rank(a.pc) <= Rank(b.pc)
    && (a.Write? ==> b.Write? && a.prev == b.prev)
    && (a.Respond? ==> b.Respond? && a.insert == b.insert)
  }

  ghost predicate Extends(old': seq<Task>, new': seq<Task>) {
    && |old'| <= |new'|
    && forall u: nat :: u < |old'| ==> SameTask(old'[u], new'[u])
  }

  lemma ExtendsKeeps(a: seq<Task>, b: seq<Task>, req: string, n: nat)
    requires Extends(a, b) && n <= |a|
    ensures forall u: nat :: u < n ==> (IsWrite(a, u, req) <==> IsWrite(b, u, req))
    ensures AllRun(a, req, n) ==> AllRun(b, req, n)
    ensures forall t: nat :: IsNewest(a, req, t, n) <==> IsNewest(b, req, t, n)
    ensures forall channel :: ChannelOk(a, req, channel, n) ==> ChannelOk(b, req, channel, n)
  {
    forall u: nat | u < n
      ensures IsWrite(a, u, req) <==> IsWrite(b, u, req)
      ensures HasRun(a, u) ==> HasRun(b, u)
    {
      assert SameTask(a[u], b[u]);
    }
  }

  lemma TaskStaysOk(a: seq<Task>, b: seq<Task>, t: nat)
    requires Extends(a, b) && t < |a| && a[t] == b[t] && TaskOk(a, t)
    ensures TaskOk(b, t)
  {
    hide SameTask, ChannelOk, AllRun;
    match a[t]
    case Write(req, prev, pc) => ExtendsKeeps(a, b, req, t);
    case Respond(req, insert, channel, seen, timedOut, pc) =>
      ExtendsKeeps(a, b, req, t);
      if Rank(pc) >= Rank(Holding) {
        ExtendsKeeps(a, b, req, seen);
      }
  }

  // ----- Channels -----

  /** A closed channel means that every write it stands for has run. */
  lemma ClosedMeansAllRun(s: State, req: string, channel: Option<nat>, n: nat)
    requires TasksOk(s.tasks) && n <= |s.tasks|
    requires ChannelOk(s.tasks, req, channel, n) && IsClosed(s, channel)
    ensures AllRun(s.tasks, req, n)
  {
    if channel.Some? {
      var p := channel.value;
      assert TaskOk(s.tasks, p);
      assert AllRun(s.tasks, req, p);
    }
  }

  lemma {:induction false} NewestExists(tasks: seq<Task>, req: string, n: nat) returns (t: Option<nat>)
    requires n <= |tasks|
    ensures t.Some? ==> IsNewest(tasks, req, t.value, n)
    ensures t.None? ==> forall u: nat :: u < n ==> !IsWrite(tasks, u, req)
  {
    t := None;
    if n > 0 {
      if IsWrite(tasks, n - 1, req) {
        t := Some(n - 1);
      } else {
        t := NewestExists(tasks, req, n - 1);
      }
    }
  }

  /** What the map says at any moment is a sound channel for all tasks registered so far. */
  lemma LookupIsOk(tasks: seq<Task>, last: map<string, nat>, req: string)
    requires TasksOk(tasks) && LastOk(tasks, last)
    ensures ChannelOk(tasks, req, Lookup(last, req), |tasks|)
  {
    if req !in last {
      var newest := NewestExists(tasks, req, |tasks|);
      if newest.Some? {
        var t := newest.value;
        assert !IsUncleanedNewest(tasks, t);
        assert TaskOk(tasks, t) && AllRun(tasks, req, t) && HasRun(tasks, t);
      }
    }
  }

  // ----- The invariant is kept -----

  lemma UpdatedTasksOk(a: seq<Task>, t: nat, x: Task)
    requires TasksOk(a) && t < |a| && SameTask(a[t], x)
    requires TaskOk(a[t := x], t)
    ensures TasksOk(a[t := x]) && Extends(a, a[t := x])
  {
    hide TaskOk;
    var b := a[t := x];
    assert Extends(a, b);
    forall u: nat | u < |b|
      ensures TaskOk(b, u)
    {
      if u != t {
        assert TaskOk(a, u);
        TaskStaysOk(a, b, u);
      }
    }
  }

  lemma AppendedTasksOk(a: seq<Task>, x: Task)
    requires TasksOk(a) && TaskOk(a + [x], |a|)
    ensures TasksOk(a + [x]) && Extends(a, a + [x])
  {
    hide TaskOk;
    var b := a + [x];
    assert Extends(a, b);
    forall u: nat | u < |b|
      ensures TaskOk(b, u)
    {
      if u != |a| {
        assert TaskOk(a, u);
        TaskStaysOk(a, b, u);
      }
    }
  }

  /** The task that moves is consistent afterwards. */
  lemma MovedTaskOk(s: State, t: nat, x: Task)
    requires TasksOk(s.tasks) && LastOk(s.tasks, s.last) && t < |s.tasks|
    requires
      var s' := AdvanceTask(s, t);
      s'.Some? && s'.value.tasks == s.tasks[t := x]
    ensures SameTask(s.tasks[t], x) && TaskOk(s.tasks[t := x], t)
  {
    assert TaskOk(s.tasks, t);
    assert s.tasks[t := x][t] == x;
    if s.tasks[t].Write? {
      MovedWriteOk(s, t, x);
    } else {
      MovedResponseOk(s, t, x);
    }
  }

  lemma MovedWriteOk(s: State, t: nat, x: Task)
    requires TasksOk(s.tasks) && t < |s.tasks| && s.tasks[t].Write? && TaskOk(s.tasks, t)
    requires
      var s' := AdvanceTask(s, t);
      s'.Some? && s'.value.tasks[t] == x
    ensures SameTask(s.tasks[t], x) && TaskOk(s.tasks[t := x], t)
  {
    hide AllRun, ChannelOk, TasksOk;
    var task := s.tasks[t];
    assert Extends(s.tasks, s.tasks[t := x]);
    ExtendsKeeps(s.tasks, s.tasks[t := x], task.req, t);
    if task.pc == Waiting {
      ClosedMeansAllRun(s, task.req, task.prev, t);
    }
  }

  lemma MovedResponseOk(s: State, t: nat, x: Task)
    requires TasksOk(s.tasks) && LastOk(s.tasks, s.last) && t < |s.tasks| && s.tasks[t].Respond? && TaskOk(s.tasks, t)
    requires
      var s' := AdvanceTask(s, t);
      s'.Some? && s'.value.tasks[t] == x
    ensures SameTask(s.tasks[t], x) && TaskOk(s.tasks[t := x], t)
  {
    hide AllRun, ChannelOk, TasksOk, LastOk;
    var task, b := s.tasks[t], s.tasks[t := x];
    assert Extends(s.tasks, b);
    ExtendsKeeps(s.tasks, b, task.req, t);
    if task.pc == Waiting {
      LookupIsOk(s.tasks, s.last, task.req);
      ExtendsKeeps(s.tasks, b, task.req, |s.tasks|);
    } else if Rank(task.pc) >= Rank(Holding) {
      ExtendsKeeps(s.tasks, b, task.req, task.seen);
      if task.pc == Holding {
        ClosedMeansAllRun(s, task.req, task.channel, task.seen);
      }
    }
  }

  lemma {:induction false} StepKeepsTasks(s: State, a: Action)
    requires TasksOk(s.tasks) && LastOk(s.tasks, s.last) && Step(s, a).Some?
    ensures TasksOk(Step(s, a).value.tasks) && Extends(s.tasks, Step(s, a).value.tasks)
  {
    var tasks' := Step(s, a).value.tasks;
    match a
    case RegisterWrite(req) =>
      var x := Write(req, Lookup(s.last, req), Registered);
      LookupIsOk(s.tasks, s.last, req);
      assert Extends(s.tasks, tasks');
      ExtendsKeeps(s.tasks, tasks', req, |s.tasks|);
      AppendedTasksOk(s.tasks, x);
    case TrackResponse(insert) =>
      assert TaskOk(tasks', |s.tasks|);
      AppendedTasksOk(s.tasks, tasks'[|s.tasks|]);
    case Advance(t) =>
      var x := tasks'[t];
      assert tasks' == s.tasks[t := x];
      MovedTaskOk(s, t, x);
      UpdatedTasksOk(s.tasks, t, x);
    case Timeout(t) =>
      assert tasks' == s.tasks[t := tasks'[t]];
      RespondingTaskMoves(s, t, tasks'[t]);
    case Skip(t) =>
      assert tasks' == s.tasks[t := tasks'[t]];
      RespondingTaskMoves(s, t, tasks'[t]);
  }

  lemma RespondingTaskMoves(s: State, t: nat, x: Task)
    requires TasksOk(s.tasks) && t < |s.tasks| && s.tasks[t].Respond?
    requires s.tasks[t].pc == Holding || s.tasks[t].pc == Running
    requires x == s.tasks[t].(timedOut := s.tasks[t].pc == Holding || s.tasks[t].timedOut, pc := Ran)
    ensures TasksOk(s.tasks[t := x]) && Extends(s.tasks, s.tasks[t := x])
  {
    var a, task := s.tasks, s.tasks[t];
    var b := a[t := x];
    assert TaskOk(a, t) && b[t] == x && SameTask(task, x) && Extends(a, b);
    ExtendsKeeps(a, b, task.req, t);
    ExtendsKeeps(a, b, task.req, task.seen);
    UpdatedTasksOk(a, t, x);
  }

  lemma LastStays(a: seq<Task>, b: seq<Task>, last: map<string, nat>)
    requires LastOk(a, last) && Extends(a, b) && |a| == |b|
    requires forall u: nat :: u < |a| && a[u].Write? ==>
               (Rank(a[u].pc) < Rank(Cleaned) <==> Rank(b[u].pc) < Rank(Cleaned))
    ensures LastOk(b, last)
  {
    hide SameTask;
    assert forall u: nat :: u < |a| ==> SameTask(a[u], b[u]);
    forall req | req in last
      ensures IsNewest(b, req, last[req], |b|) && Rank(b[last[req]].pc) < Rank(Cleaned)
    {
      ExtendsKeeps(a, b, req, |a|);
    }
    forall t: nat | IsUncleanedNewest(b, t)
      ensures b[t].req in last && last[b[t].req] == t
    {
      ExtendsKeeps(a, b, b[t].req, |a|);
      assert IsUncleanedNewest(a, t) && IsWrite(a, t, b[t].req);
    }
  }

  /** Cleaning up write `t` removes its entry, unless a newer write has taken its place. */
  lemma CleanupKeepsLast(a: seq<Task>, last: map<string, nat>, t: nat, x: Task)
    requires LastOk(a, last) && t < |a| && a[t].Write? && a[t].pc == Ran
    requires x == Write(a[t].req, a[t].prev, Cleaned)
    ensures LastOk(a[t := x], if Lookup(last, x.req) == Some(t) then last - {x.req} else last)
  {
    var req, b := x.req, a[t := x];
    var last' := if Lookup(last, req) == Some(t) then last - {req} else last;
    assert Extends(a, b);
    forall r | r in last'
      ensures IsNewest(b, r, last'[r], |b|) && Rank(b[last'[r]].pc) < Rank(Cleaned)
    {
      ExtendsKeeps(a, b, r, |a|);
    }
    forall u: nat | IsUncleanedNewest(b, u)
      ensures b[u].req in last' && last'[b[u].req] == u
    {
      ExtendsKeeps(a, b, b[u].req, |a|);
      assert u != t && IsUncleanedNewest(a, u);
    }
  }

  lemma NewestAfterAppend(a: seq<Task>, x: Task, req: string, t: nat)
    ensures IsNewest(a + [x], req, t, |a| + 1) <==>
            if x.Write? && x.req == req then t == |a| else IsNewest(a, req, t, |a|)
  {
    var b := a + [x];
    assert forall u: nat :: u < |a| ==> (IsWrite(b, u, req) <==> IsWrite(a, u, req));
    assert IsWrite(b, |a|, req) <==> x.Write? && x.req == req;
  }

  lemma RegisterKeepsLast(a: seq<Task>, last: map<string, nat>, req: string, x: Task)
    requires LastOk(a, last) && x.Write? && x.req == req && x.pc == Registered
    ensures LastOk(a + [x], last[req := |a|])
  {
    var b, last' := a + [x], last[req := |a|];
    forall r | r in last'
      ensures IsNewest(b, r, last'[r], |b|) && Rank(b[last'[r]].pc) < Rank(Cleaned)
    {
      NewestAfterAppend(a, x, r, last'[r]);
    }
    forall u: nat | IsUncleanedNewest(b, u)
      ensures b[u].req in last' && last'[b[u].req] == u
    {
      NewestAfterAppend(a, x, b[u].req, u);
      assert b[u].req != req ==> IsUncleanedNewest(a, u);
    }
  }

  lemma TrackKeepsLast(a: seq<Task>, last: map<string, nat>, x: Task)
    requires LastOk(a, last) && x.Respond?
    ensures LastOk(a + [x], last)
  {
    var b := a + [x];
    forall r | r in last
      ensures IsNewest(b, r, last[r], |b|) && Rank(b[last[r]].pc) < Rank(Cleaned)
    {
      NewestAfterAppend(a, x, r, last[r]);
    }
    forall u: nat | IsUncleanedNewest(b, u)
      ensures b[u].req in last && last[b[u].req] == u
    {
      NewestAfterAppend(a, x, b[u].req, u);
      assert IsUncleanedNewest(a, u);
    }
  }

  lemma StepKeepsLast(s: State, a: Action)
    requires TasksOk(s.tasks) && LastOk(s.tasks, s.last) && Step(s, a).Some?
    ensures LastOk(Step(s, a).value.tasks, Step(s, a).value.last)
  {
    hide LastOk, TasksOk, Extends;
    var s' := Step(s, a).value;
    StepKeepsTasks(s, a);
    match a
    case RegisterWrite(req) =>
      RegisterKeepsLast(s.tasks, s.last, req, s'.tasks[|s.tasks|]);
    case TrackResponse(insert) =>
      TrackKeepsLast(s.tasks, s.last, s'.tasks[|s.tasks|]);
    case Advance(t) =>
      if s.tasks[t].Write? && s.tasks[t].pc == Ran {
        CleanupKeepsLast(s.tasks, s.last, t, s'.tasks[t]);
      } else {
        LastStays(s.tasks, s'.tasks, s.last);
      }
    case Timeout(t) => LastStays(s.tasks, s'.tasks, s.last);
    case Skip(t) => LastStays(s.tasks, s'.tasks, s.last);
  }

  // ----- The counters -----

  function Sum(tasks: seq<Task>, weight: Task -> int): int {
    if tasks == [] then 0 else Sum(tasks[..|tasks| - 1], weight) + weight(tasks[|tasks| - 1])
  }

  lemma {:induction false} SumUpdate(tasks: seq<Task>, t: nat, x: Task, weight: Task -> int)
    requires t < |tasks|
    ensures Sum(tasks[t := x], weight) == Sum(tasks, weight) - weight(tasks[t]) + weight(x)
  {
    var n := |tasks| - 1;
    if t < n {
      SumUpdate(tasks[..n], t, x, weight);
      assert tasks[t := x][..n] == tasks[..n][t := x];
    } else {
      assert tasks[t := x][..n] == tasks[..n];
    }
  }

  lemma SumAppend(tasks: seq<Task>, x: Task, weight: Task -> int)
    ensures Sum(tasks + [x], weight) == Sum(tasks, weight) + weight(x)
  {
    assert (tasks + [x])[..|tasks|] == tasks;
  }

  /** In flight for `PendingCount`. */
  function InFlight(task: Task): int {
    if Rank(Counted) <= Rank(task.pc) < Rank(Cleaned) then 1 else 0
  }

  /** In flight for the WaitGroup. */
  function InGroup(task: Task): int {
    if Rank(Added) <= Rank(task.pc) < Rank(Finished) then 1 else 0
  }

  /** Steps still to be taken, at most. */
  function Remaining(task: Task): int {
    Rank(Finished) - Rank(task.pc)
  }

  ghost predicate CountersOk(s: State) {
    s.count == Sum(s.tasks, InFlight) && s.wg == Sum(s.tasks, InGroup)
  }

  predicate Registers(a: Action) {
    a.RegisterWrite? || a.TrackResponse?
  }

  lemma MovedCounters(s: State, t: nat, x: Task, s': State)
    requires CountersOk(s) && t < |s.tasks| && s'.tasks == s.tasks[t := x]
    requires s'.count == s.count - InFlight(s.tasks[t]) + InFlight(x)
    requires s'.wg == s.wg - InGroup(s.tasks[t]) + InGroup(x)
    requires Rank(s.tasks[t].pc) < Rank(x.pc)
    ensures CountersOk(s') && Sum(s'.tasks, Remaining) < Sum(s.tasks, Remaining)
  {
    SumUpdate(s.tasks, t, x, InFlight);
    SumUpdate(s.tasks, t, x, InGroup);
    SumUpdate(s.tasks, t, x, Remaining);
  }

  lemma AdvanceCounters(s: State, t: nat)
    requires CountersOk(s) && t < |s.tasks| && TaskOk(s.tasks, t) && AdvanceTask(s, t).Some?
    ensures
      var s' := AdvanceTask(s, t).value;
      CountersOk(s') && Sum(s'.tasks, Remaining) < Sum(s.tasks, Remaining)
  {
    hide CountersOk, Sum, ChannelOk, AllRun, IsClosed;
    var s' := AdvanceTask(s, t).value;
    assert s'.tasks == s.tasks[t := s'.tasks[t]];
    MovedCounters(s, t, s'.tasks[t], s');
  }

  /** The counters count what they should, and every step that registers nothing brings the end nearer. */
  lemma StepKeepsCounters(s: State, a: Action)
    requires CountersOk(s) && TasksOk(s.tasks) && Step(s, a).Some?
    ensures CountersOk(Step(s, a).value)
    ensures !Registers(a) ==> Sum(Step(s, a).value.tasks, Remaining) < Sum(s.tasks, Remaining)
  {
    hide Sum, TaskOk, AdvanceTask;
    var s' := Step(s, a).value;
    if Registers(a) {
      SumAppend(s.tasks, s'.tasks[|s.tasks|], InFlight);
      SumAppend(s.tasks, s'.tasks[|s.tasks|], InGroup);
    } else if a.Advance? {
      AdvanceCounters(s, a.task);
    } else {
      assert s'.tasks == s.tasks[a.task := s'.tasks[a.task]];
      MovedCounters(s, a.task, s'.tasks[a.task], s');
    }
  }

  // ----- The order of the writes -----

  /** The starts and ends of the writes of one request, in the order they happened. */
  function Projection(log: seq<LogEvent>, req: string): seq<LogEvent> {
    if log == [] then []
    else
      var last := log[|log| - 1];
      Projection(log[..|log| - 1], req) + if !last.Update? && last.req == req then [last] else []
  }

  /** One write after the other, in registration order. */
  function Serial(tasks: seq<Task>, req: string): seq<LogEvent> {
    if tasks == [] then []
    else
      var n := |tasks| - 1;
      Serial(tasks[..n], req) + if IsWrite(tasks, n, req) then [Begin(req, n), End(req, n)] else []
  }

  /** What one task has contributed so far. */
  function Progress(task: Task, t: nat, req: string): seq<LogEvent> {
    if !task.Write? || task.req != req || Rank(task.pc) < Rank(Running) then []
    else if task.pc == Running then [Begin(req, t)]
    else [Begin(req, t), End(req, t)]
  }

  function AllProgress(tasks: seq<Task>, req: string): seq<LogEvent> {
    if tasks == [] then []
    else
      var n := |tasks| - 1;
      AllProgress(tasks[..n], req) + Progress(tasks[n], n, req)
  }

  lemma ProjectionSnoc(log: seq<LogEvent>, e: LogEvent, req: string)
    ensures Projection(log + [e], req) == Projection(log, req) + if !e.Update? && e.req == req then [e] else []
  {
    assert (log + [e])[..|log|] == log;
  }

  lemma AllProgressSnoc(tasks: seq<Task>, x: Task, req: string)
    ensures AllProgress(tasks + [x], req) == AllProgress(tasks, req) + Progress(x, |tasks|, req)
  {
    assert (tasks + [x])[..|tasks|] == tasks;
  }

  /** A task that moves without starting or ending a write changes nothing. */
  lemma {:induction false} ProgressUnchanged(tasks: seq<Task>, t: nat, x: Task, req: string)
    requires t < |tasks| && Progress(x, t, req) == Progress(tasks[t], t, req)
    ensures AllProgress(tasks[t := x], req) == AllProgress(tasks, req)
  {
    hide Progress;
    var n := |tasks| - 1;
    if t < n {
      ProgressUnchanged(tasks[..n], t, x, req);
      assert tasks[t := x][..n] == tasks[..n][t := x];
    } else {
      assert tasks[t := x][..n] == tasks[..n];
    }
  }

  /** When no later write has begun, the new event is the last one. */
  lemma {:induction false} ProgressGrows(tasks: seq<Task>, t: nat, x: Task, req: string, e: LogEvent)
    requires t < |tasks| && Progress(x, t, req) == Progress(tasks[t], t, req) + [e]
    requires forall u: nat :: t < u < |tasks| ==> Progress(tasks[u], u, req) == []
    ensures AllProgress(tasks[t := x], req) == AllProgress(tasks, req) + [e]
  {
    hide Progress;
    var n := |tasks| - 1;
    var none: seq<LogEvent> := [];
    if t < n {
      ProgressGrows(tasks[..n], t, x, req, e);
      assert tasks[t := x][..n] == tasks[..n][t := x];
      assert AllProgress(tasks, req) + none == AllProgress(tasks[..n], req);
      assert AllProgress(tasks[t := x], req) == AllProgress(tasks[..n][t := x], req) + none;
    } else {
      assert tasks[t := x][..n] == tasks[..n];
    }
  }

  /** A write that has not run keeps all later ones from beginning. */
  lemma LaterWritesWait(tasks: seq<Task>, t: nat, req: string)
    requires TasksOk(tasks) && IsWrite(tasks, t, req) && !HasRun(tasks, t)
    ensures forall u: nat :: t < u < |tasks| ==> Progress(tasks[u], u, req) == []
  {
    forall u: nat | t < u < |tasks|
      ensures Progress(tasks[u], u, req) == []
    {
      assert TaskOk(tasks, u);
      assert IsWrite(tasks, u, req) && Rank(tasks[u].pc) >= Rank(Running) ==> AllRun(tasks, req, u);
    }
  }

  ghost predicate LogOk(s: State) {
    forall req :: Projection(s.log, req) == AllProgress(s.tasks, req)
  }

  lemma AdvanceKeepsLog(s: State, t: nat, req: string)
    requires TasksOk(s.tasks) && t < |s.tasks| && AdvanceTask(s, t).Some?
    requires Projection(s.log, req) == AllProgress(s.tasks, req)
    ensures
      var s' := AdvanceTask(s, t).value;
      Projection(s'.log, req) == AllProgress(s'.tasks, req)
  {
    hide Projection, AllProgress, IsClosed, AllRun, ChannelOk;
    var task, s' := s.tasks[t], AdvanceTask(s, t).value;
    var x := s'.tasks[t];
    assert TaskOk(s.tasks, t);
    assert s'.tasks == s.tasks[t := x];
    if task.Write? && task.req == req && (task.pc == Waiting || task.pc == Running) {
      var e := if task.pc == Waiting then Begin(req, t) else End(req, t);
      LaterWritesWait(s.tasks, t, req);
      ProgressGrows(s.tasks, t, x, req, e);
      ProjectionSnoc(s.log, e, req);
    } else {
      ProgressUnchanged(s.tasks, t, x, req);
      if s'.log != s.log {
        ProjectionSnoc(s.log, s'.log[|s.log|], req);
      }
    }
  }

  lemma StepKeepsLog(s: State, a: Action)
    requires TasksOk(s.tasks) && LogOk(s) && Step(s, a).Some?
    ensures LogOk(Step(s, a).value)
  {
    hide Projection, AllProgress, AdvanceTask, TaskOk;
    var s' := Step(s, a).value;
    forall req
      ensures Projection(s'.log, req) == AllProgress(s'.tasks, req)
    {
      if Registers(a) {
        AllProgressSnoc(s.tasks, s'.tasks[|s.tasks|], req);
      } else if a.Advance? {
        AdvanceKeepsLog(s, a.task, req);
      } else {
        assert s'.tasks == s.tasks[a.task := s'.tasks[a.task]];
        ProgressUnchanged(s.tasks, a.task, s'.tasks[a.task], req);
      }
    }
  }

  lemma {:induction false} ProgressIsPrefixOfSerial(tasks: seq<Task>, req: string, n: nat)
    requires TasksOk(tasks) && n <= |tasks|
    ensures AllProgress(tasks[..n], req) <= Serial(tasks[..n], req)
    ensures AllRun(tasks, req, n) ==> AllProgress(tasks[..n], req) == Serial(tasks[..n], req)
  {
    if n > 0 {
      assert TaskOk(tasks, n - 1);
      assert tasks[..n][..n - 1] == tasks[..n - 1];
      ProgressIsPrefixOfSerial(tasks, req, n - 1);
      assert AllRun(tasks, req, n) && IsWrite(tasks, n - 1, req) ==> HasRun(tasks, n - 1);
    }
  }

  // ----- Updates -----

  /** The UPDATE at position `i` comes from a response task that did not time out, after its INSERT. */
  ghost predicate UpdateOk(s: State, i: nat)
    requires i < |s.log|
  {
    var e := s.log[i];
    e.Update? ==>
      && e.task < |s.tasks| && s.tasks[e.task].Respond? && !s.tasks[e.task].timedOut
      && HasRun(s.tasks, e.task)
      && EndedBefore(s.log, e.req, s.tasks[e.task].insert, i)
  }

  ghost predicate UpdatesOk(s: State) {
    && (forall i: nat :: i < |s.log| ==> UpdateOk(s, i))
    && (forall t: nat, req :: IsWrite(s.tasks, t, req) && HasRun(s.tasks, t) ==> EndedBefore(s.log, req, t, |s.log|))
  }

  ghost predicate EndedBefore(log: seq<LogEvent>, req: string, t: nat, i: nat) {
    exists j :: 0 <= j < i && j < |log| && log[j] == End(req, t)
  }

  lemma EndedStays(log: seq<LogEvent>, more: seq<LogEvent>, req: string, t: nat, i: nat)
    requires EndedBefore(log, req, t, i)
    ensures EndedBefore(log + more, req, t, i)
  {
    var j :| 0 <= j < i && j < |log| && log[j] == End(req, t);
    assert (log + more)[j] == End(req, t);
  }

  /** At most one event is logged by a step: the start or the end of a write, or an UPDATE by a response
      task that got past its channel. */
  lemma StepLogs(s: State, a: Action)
    requires Step(s, a).Some?
    ensures
      var s' := Step(s, a).value;
      || s'.log == s.log
      || (a.Advance? && a.task < |s.tasks| && s'.tasks == s.tasks[a.task := s'.tasks[a.task]]
          && s'.log == s.log + [if s.tasks[a.task].pc == Waiting then Begin(s.tasks[a.task].req, a.task)
                                else if s.tasks[a.task].Write? then End(s.tasks[a.task].req, a.task)
                                else Update(s.tasks[a.task].req, a.task)]
          && (if s.tasks[a.task].pc == Waiting then s'.tasks[a.task].pc == Running
              else s.tasks[a.task].pc == Running && s'.tasks[a.task] == s.tasks[a.task].(pc := Ran)))
  {
  }

  /** A task that has run keeps its fate. */
  lemma FateStays(s: State, a: Action, t: nat)
    requires Step(s, a).Some? && HasRun(s.tasks, t)
    ensures
      var tasks' := Step(s, a).value.tasks;
      HasRun(tasks', t) && (s.tasks[t].Respond? ==>
        tasks'[t].Respond? && tasks'[t].timedOut == s.tasks[t].timedOut && tasks'[t].insert == s.tasks[t].insert)
  {
  }

  /** A write that runs now, or an event that makes it so. */
  lemma NewlyRun(s: State, a: Action, t: nat, req: string)
    requires Step(s, a).Some? && TasksOk(s.tasks)
    requires IsWrite(Step(s, a).value.tasks, t, req) && HasRun(Step(s, a).value.tasks, t)
    ensures (IsWrite(s.tasks, t, req) && HasRun(s.tasks, t)) || Step(s, a).value.log == s.log + [End(req, t)]
  {
    if t < |s.tasks| {
      assert TaskOk(s.tasks, t);
    }
  }

  lemma StepKeepsUpdates(s: State, a: Action)
    requires TasksOk(s.tasks) && UpdatesOk(s) && Step(s, a).Some?
    ensures UpdatesOk(Step(s, a).value)
  {
    var s' := Step(s, a).value;
    StepLogs(s, a);
    var more := if s'.log == s.log then [] else [s'.log[|s.log|]];
    assert s'.log == s.log + more;
    forall i: nat | i < |s'.log|
      ensures UpdateOk(s', i)
    {
      if i < |s.log| {
        assert UpdateOk(s, i);
        OldUpdateStays(s, a, i, more);
      } else {
        NewUpdateIsOk(s, a);
      }
    }
    forall t: nat, req | IsWrite(s'.tasks, t, req) && HasRun(s'.tasks, t)
      ensures EndedBefore(s'.log, req, t, |s'.log|)
    {
      hide Step;
      NewlyRun(s, a, t, req);
      if IsWrite(s.tasks, t, req) && HasRun(s.tasks, t) {
        EndedStays(s.log, more, req, t, |s.log|);
      } else {
        assert s'.log[|s.log|] == End(req, t);
      }
    }
  }

  lemma OldUpdateStays(s: State, a: Action, i: nat, more: seq<LogEvent>)
    requires Step(s, a).Some? && Step(s, a).value.log == s.log + more
    requires i < |s.log| && UpdateOk(s, i)
    ensures UpdateOk(Step(s, a).value, i)
  {
    hide Step, EndedBefore;
    var e := s.log[i];
    assert Step(s, a).value.log[i] == e;
    if e.Update? {
      FateStays(s, a, e.task);
      EndedStays(s.log, more, e.req, s.tasks[e.task].insert, i);
    }
  }

  lemma NewUpdateIsOk(s: State, a: Action)
    requires TasksOk(s.tasks) && UpdatesOk(s) && Step(s, a).Some? && |Step(s, a).value.log| > |s.log|
    ensures UpdateOk(Step(s, a).value, |s.log|)
  {
    hide UpdateOk, AllRun, ChannelOk, EndedBefore;
    StepLogs(s, a);
    hide Step;
    var s', t := Step(s, a).value, a.task;
    var e := s'.log[|s.log|];
    assert TaskOk(s.tasks, t);
    if e.Update? {
      var task := s.tasks[t];
      RunningMeansInserted(s.tasks, t);
      assert IsWrite(s.tasks, task.insert, task.req) && HasRun(s.tasks, task.insert);
      EndedStays(s.log, [e], task.req, task.insert, |s.log|);
      UpdateIs(s', |s.log|, task);
    } else {
      NoUpdate(s', |s.log|);
    }
  }

  lemma RunningMeansInserted(tasks: seq<Task>, t: nat)
    requires t < |tasks| && TaskOk(tasks, t) && tasks[t].Respond? && tasks[t].pc == Running
    ensures IsWrite(tasks, tasks[t].insert, tasks[t].req) && HasRun(tasks, tasks[t].insert)
  {
    assert AllRun(tasks, tasks[t].req, tasks[t].seen);
  }

  lemma UpdateIs(s: State, i: nat, task: Task)
    requires i < |s.log| && s.log[i].Update? && s.log[i].task < |s.tasks|
    requires task.Respond? && !task.timedOut && s.tasks[s.log[i].task] == task.(pc := Ran)
    requires EndedBefore(s.log, s.log[i].req, task.insert, i)
    ensures UpdateOk(s, i)
  {
  }

  lemma NoUpdate(s: State, i: nat)
    requires i < |s.log| && !s.log[i].Update?
    ensures UpdateOk(s, i)
  {
  }

  // ----- Every reachable state -----

  ghost predicate Inv(s: State) {
    TasksOk(s.tasks) && LastOk(s.tasks, s.last) && CountersOk(s) && LogOk(s) && UpdatesOk(s)
  }

  lemma {:induction false} StepKeepsInv(s: State, a: Action)
    requires Inv(s) && Step(s, a).Some?
    ensures Inv(Step(s, a).value)
  {
    hide TasksOk, LastOk, CountersOk, LogOk, UpdatesOk, Step;
    StepKeepsTasks(s, a);
    StepKeepsLast(s, a);
    StepKeepsCounters(s, a);
    StepKeepsLog(s, a);
    StepKeepsUpdates(s, a);
  }

  lemma {:induction false} EveryRunKeepsInv(actions: seq<Action>)
    requires Exec(actions).Some?
    ensures Inv(Exec(actions).value)
  {
    if actions != [] {
      hide Inv, Step;
      EveryRunKeepsInv(actions[..|actions| - 1]);
      StepKeepsInv(Exec(actions[..|actions| - 1]).value, actions[|actions| - 1]);
    }
  }

  /** In every interleaving the writes of one request run one after the other, in the order in which they
      were registered: what has happened is an initial part of the serial schedule. */
  lemma WritesAreSerial(actions: seq<Action>, req: string)
    requires Exec(actions).Some?
    ensures
      var s := Exec(actions).value;
      Projection(s.log, req) <= Serial(s.tasks, req)
  {
    hide Exec, Projection, Serial, AllProgress;
    var s := Exec(actions).value;
    EveryRunKeepsInv(actions);
    ProgressIsPrefixOfSerial(s.tasks, req, |s.tasks|);
    assert s.tasks[..|s.tasks|] == s.tasks;
  }

  /** A response task gets past its channel only when every write registered for its request before it
      asked for the channel has ended, its INSERT among them. */
  lemma ChannelMeansWritten(actions: seq<Action>, t: nat, u: nat)
    requires Exec(actions).Some? && t < |Exec(actions).value.tasks|
    requires
      var s := Exec(actions).value;
      var task := s.tasks[t];
      && task.Respond? && !task.timedOut
      && ((task.pc == Holding && IsClosed(s, task.channel)) || Rank(task.pc) >= Rank(Running))
      && u < task.seen && IsWrite(s.tasks, u, task.req)
    ensures
      var s := Exec(actions).value;
      EndedBefore(s.log, s.tasks[t].req, u, |s.log|) && s.tasks[t].insert < s.tasks[t].seen
  {
    hide Exec;
    var s := Exec(actions).value;
    var task := s.tasks[t];
    EveryRunKeepsInv(actions);
    assert TaskOk(s.tasks, t);
    if task.pc == Holding {
      ClosedMeansAllRun(s, task.req, task.channel, task.seen);
    }
    assert HasRun(s.tasks, u);
  }

  /** Every UPDATE comes after its INSERT has ended, and a response task that timed out issues none. */
  lemma UpdateFollowsInsert(actions: seq<Action>, i: nat)
    requires Exec(actions).Some? && i < |Exec(actions).value.log| && Exec(actions).value.log[i].Update?
    ensures
      var s := Exec(actions).value;
      var e := s.log[i];
      && e.task < |s.tasks| && s.tasks[e.task].Respond? && !s.tasks[e.task].timedOut
      && EndedBefore(s.log, e.req, s.tasks[e.task].insert, i)
  {
    hide Exec, EndedBefore;
    EveryRunKeepsInv(actions);
    assert UpdateOk(Exec(actions).value, i);
  }

  /** The map has an entry for a request exactly while its newest write has not been cleaned up. */
  lemma MapIsExact(actions: seq<Action>, req: string)
    requires Exec(actions).Some?
    ensures
      var s := Exec(actions).value;
      req in s.last <==> exists t: nat :: IsUncleanedNewest(s.tasks, t) && s.tasks[t].req == req
    ensures
      var s := Exec(actions).value;
      req in s.last ==> IsUncleanedNewest(s.tasks, s.last[req]) && s.tasks[s.last[req]].req == req
  {
    hide Exec;
    EveryRunKeepsInv(actions);
  }

  // ----- The drain -----

  predicate AllFinished(tasks: seq<Task>) {
    forall t: nat :: t < |tasks| ==> tasks[t].pc == Finished
  }

  lemma {:induction false} FirstUnfinishedWrite(tasks: seq<Task>, n: nat) returns (t: Option<nat>)
    requires n <= |tasks|
    ensures t.Some? ==>
              && t.value < n && tasks[t.value].Write? && tasks[t.value].pc != Finished
              && forall u: nat :: u < t.value && tasks[u].Write? ==> tasks[u].pc == Finished
    ensures t.None? ==> forall u: nat :: u < n && tasks[u].Write? ==> tasks[u].pc == Finished
  {
    t := None;
    if n > 0 {
      t := FirstUnfinishedWrite(tasks, n - 1);
      if t.None? && tasks[n - 1].Write? && tasks[n - 1].pc != Finished {
        t := Some(n - 1);
      }
    }
  }

  lemma WriteCanMove(s: State, t: nat)
    requires t < |s.tasks| && TaskOk(s.tasks, t) && s.tasks[t].Write? && s.tasks[t].pc != Finished
    requires forall u: nat :: u < t && s.tasks[u].Write? ==> s.tasks[u].pc == Finished
    ensures AdvanceTask(s, t).Some?
  {
    hide AllRun;
  }

  lemma ResponseCanMove(s: State, t: nat)
    requires t < |s.tasks| && TaskOk(s.tasks, t) && s.tasks[t].Respond? && s.tasks[t].pc != Finished
    requires forall u: nat :: u < |s.tasks| && s.tasks[u].Write? ==> s.tasks[u].pc == Finished
    ensures AdvanceTask(s, t).Some?
  {
    hide AllRun;
  }

  /** Unless all tasks have finished, some task can take its next step: nothing ever deadlocks. */
  lemma SomeTaskCanMove(s: State) returns (t: nat)
    requires Inv(s) && !AllFinished(s.tasks)
    ensures t < |s.tasks| && AdvanceTask(s, t).Some?
  {
    hide TaskOk, AdvanceTask, LastOk, CountersOk, LogOk, UpdatesOk;
    var write := FirstUnfinishedWrite(s.tasks, |s.tasks|);
    if write.Some? {
      t := write.value;
      assert TaskOk(s.tasks, t);
      WriteCanMove(s, t);
    } else {
      t :| t < |s.tasks| && s.tasks[t].pc != Finished;
      assert TaskOk(s.tasks, t);
      ResponseCanMove(s, t);
    }
  }

  lemma {:induction false} NothingRemains(tasks: seq<Task>)
    ensures Sum(tasks, Remaining) >= 0
    ensures AllFinished(tasks) ==> Sum(tasks, InFlight) == 0 && Sum(tasks, InGroup) == 0
  {
    if tasks != [] {
      NothingRemains(tasks[..|tasks| - 1]);
      assert AllFinished(tasks) ==> AllFinished(tasks[..|tasks| - 1]);
    }
  }

  /** Once all tasks have finished, the map is empty and both counters are zero. */
  lemma FinishedMeansClean(s: State)
    requires Inv(s) && AllFinished(s.tasks)
    ensures s.last == map[] && s.count == 0 && s.wg == 0
  {
    NothingRemains(s.tasks);
    assert forall req :: req !in s.last;
  }

  lemma {:induction false} NobodyInGroup(tasks: seq<Task>)
    ensures Sum(tasks, InGroup) >= 0
    ensures Sum(tasks, InGroup) == 0 <==>
            forall t: nat :: t < |tasks| ==> tasks[t].pc == Finished || tasks[t].pc == Registered
  {
    if tasks != [] {
      var front, last := tasks[..|tasks| - 1], tasks[|tasks| - 1];
      NobodyInGroup(front);
      assert tasks == front + [last];
    }
  }

  /** What a return of `Wait` means: the WaitGroup is at zero exactly when every task has finished or has
      been linked into its chain without being counted yet. */
  lemma WaitReturnsExactlyWhen(actions: seq<Action>)
    requires Exec(actions).Some?
    ensures
      var s := Exec(actions).value;
      s.wg == 0 <==> forall t: nat :: t < |s.tasks| ==> s.tasks[t].pc == Finished || s.tasks[t].pc == Registered
  {
    EveryRunKeepsInv(actions);
    InvCounters(Exec(actions).value);
    NobodyInGroup(Exec(actions).value.tasks);
  }

  /** So `Wait` can return although a write has been registered and not begun. */
  lemma WaitMayMissAWrite(req: string)
    ensures
      var s := Exec([RegisterWrite(req)]);
      s.Some? && s.value.wg == 0 && |s.value.tasks| == 1 && !HasRun(s.value.tasks, 0)
  {
    assert [RegisterWrite(req)][..0] == [];
  }

  lemma ExecSnoc(actions: seq<Action>, a: Action)
    ensures Exec(actions + [a]) == match Exec(actions) case None => None case Some(s) => Step(s, a)
  {
    hide Step;
    assert (actions + [a])[..|actions|] == actions;
  }

  /** From every reachable state the tasks drain by themselves: letting tasks move, without any further
      registration and without any timeout, ends with everything finished, the map empty and the counters
      at zero, within the number of steps that remain. */
  lemma {:induction false} DrainCompletes(actions: seq<Action>) returns (more: seq<Action>)
    requires Exec(actions).Some?
    ensures forall i :: 0 <= i < |more| ==> more[i].Advance?
    ensures |more| <= Sum(Exec(actions).value.tasks, Remaining)
    ensures Exec(actions + more).Some?
    ensures
      var end := Exec(actions + more).value;
      AllFinished(end.tasks) && end.last == map[] && end.count == 0 && end.wg == 0
    decreases Sum(Exec(actions).value.tasks, Remaining)
  {
    hide Inv, AllFinished, Exec, Sum, AdvanceTask;
    var s := Exec(actions).value;
    EveryRunKeepsInv(actions);
    NothingRemains(s.tasks);
    if AllFinished(s.tasks) {
      more := [];
      assert actions + more == actions;
      FinishedMeansClean(s);
    } else {
      var t := SomeTaskCanMove(s);
      ExecSnoc(actions, Advance(t));
      InvCounters(s);
      StepKeepsCounters(s, Advance(t));
      EveryRunKeepsInv(actions + [Advance(t)]);
      NothingRemains(Exec(actions + [Advance(t)]).value.tasks);
      var rest := DrainCompletes(actions + [Advance(t)]);
      more := [Advance(t)] + rest;
      assert actions + more == actions + [Advance(t)] + rest;
    }
  }

  lemma InvCounters(s: State)
    requires Inv(s)
    ensures CountersOk(s) && TasksOk(s.tasks)
  {
  }

  /** However the tasks are scheduled, they can take no more steps than remain. */
  lemma {:induction false} DrainIsBounded(actions: seq<Action>, more: seq<Action>)
    requires Exec(actions).Some? && Exec(actions + more).Some?
    requires forall i :: 0 <= i < |more| ==> !Registers(more[i])
    ensures |more| <= Sum(Exec(actions).value.tasks, Remaining) - Sum(Exec(actions + more).value.tasks, Remaining)
    ensures |more| <= Sum(Exec(actions).value.tasks, Remaining)
  {
    hide Inv, Exec, Sum, Step;
    if more == [] {
      assert actions + more == actions;
    } else {
      var front, a := more[..|more| - 1], more[|more| - 1];
      assert actions + more == (actions + front) + [a];
      ExecSnoc(actions + front, a);
      DrainIsBounded(actions, front);
      EveryRunKeepsInv(actions + front);
      InvCounters(Exec(actions + front).value);
      StepKeepsCounters(Exec(actions + front).value, a);
    }
    NothingRemains(Exec(actions + more).value.tasks);
  }
}
