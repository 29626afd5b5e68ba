/**
 The file sink of the audit trail: records are appended to the file of their
 window, and the first record of a new window first sweeps expired files.
 */
module AuditSink {
  import opened Options
  import opened Digits
  import opened Audit

  datatype File = File(name: string)

  datatype Event = Event(eventType: string, body: string)

  type Files = map<File, seq<Event>>

  datatype Policy = Policy(rotation: Rotation, keepHours: Option<nat>)

  /** One call of `record`: the event, the clock, the process, and how the file system answers. */
  datatype Call = Call(event: Event, now: Instant, pid: nat, dirOk: bool, listable: bool, stuck: set<File>, appendOk: bool)

  datatype Sink = Sink(files: Files, lastSweep: Option<string>)

  predicate IsLog(name: string) {
    |name| > 4 && name[|name| - 4..] == ".log"
  }

  function Cutoff(now: Instant, hours: nat): int
    requires IsInstant(now)
  {
    TimeOf(now) - NANOS * 3600 * hours
  }

  /** A log of another window whose date is before the cutoff. */
  predicate Expired(name: string, current: string, cutoff: int) {
    && IsLog(name)
    && !(current + "-" <= name)
    && var dating := ParseStamp(name); dating.Some? && NANOS * When(dating.value) < cutoff
  }

  /** What is left after removing the expired files that can be removed. */
  ghost function Swept(files: Files, current: string, cutoff: int, stuck: set<File>): Files {
    map f | f in files && (f in stuck || !Expired(f.name, current, cutoff)) :: files[f]
  }

  function Target(rotation: Rotation, call: Call): File
    requires HasStamp(rotation, call.now)
  {
    File(LogName(Stamp(rotation, call.now), call.pid, CategoryOf(call.event.eventType)))
  }

  function Contents(files: Files, f: File): seq<Event> {
    if f in files then files[f] else []
  }

  predicate SweepDue(policy: Policy, lastSweep: Option<string>, now: Instant)
    requires HasStamp(policy.rotation, now)
  {
    policy.keepHours.Some? && lastSweep != Some(Stamp(policy.rotation, now))
  }

  ghost function FilesSwept(policy: Policy, sink: Sink, call: Call): Files
    requires HasStamp(policy.rotation, call.now)
  {
    if SweepDue(policy, sink.lastSweep, call.now) && call.listable then
      Swept(sink.files, Stamp(policy.rotation, call.now), Cutoff(call.now, policy.keepHours.value), call.stuck)
    else sink.files
  }

  /** The sink after one call. */
  ghost function Recorded(policy: Policy, sink: Sink, call: Call): Sink
    requires HasStamp(policy.rotation, call.now)
  {
    if !call.dirOk then sink else
    var swept := FilesSwept(policy, sink, call);
    var target := Target(policy.rotation, call);
    Sink(if call.appendOk then swept[target := Contents(swept, target) + [call.event]] else swept,
         if SweepDue(policy, sink.lastSweep, call.now) then Some(Stamp(policy.rotation, call.now)) else sink.lastSweep)
  }

  // ----- the file operations of a call -----

  /** One file operation, made for a call: removing a file found expired, or appending the call's event. */
  datatype Action = Removal(file: File, call: Call) | Append(call: Call)

  predicate MayRemove(policy: Policy, f: File, call: Call)
    requires HasStamp(policy.rotation, call.now)
  {
    policy.keepHours.Some?
    && Expired(f.name, Stamp(policy.rotation, call.now), Cutoff(call.now, policy.keepHours.value))
  }

  predicate IsAction(policy: Policy, a: Action) {
    HasStamp(policy.rotation, a.call.now) && (a.Removal? ==> MayRemove(policy, a.file, a.call))
  }

  function Play(policy: Policy, files: Files, a: Action): Files
    requires IsAction(policy, a)
  {
    match a
    case Removal(file, _) => files - {file}
    case Append(call) =>
      var target := Target(policy.rotation, call);
      files[target := Contents(files, target) + [call.event]]
  }

  ghost predicate AreActions(policy: Policy, actions: seq<Action>) {
    forall i {:trigger IsAction(policy, actions[i])} | 0 <= i < |actions| :: IsAction(policy, actions[i])
  }

  lemma ActionsBefore(policy: Policy, actions: seq<Action>)
    requires AreActions(policy, actions) && actions != []
    ensures AreActions(policy, actions[..|actions| - 1]) && IsAction(policy, actions[|actions| - 1])
  {
    var n := |actions| - 1;
    forall i | 0 <= i < n ensures IsAction(policy, actions[..n][i]) {
      assert IsAction(policy, actions[i]);
    }
    assert IsAction(policy, actions[n]);
  }

  /** File operations, one after the other. */
  ghost function PlayAll(policy: Policy, files: Files, actions: seq<Action>): Files
    requires AreActions(policy, actions)
  {
    if actions == [] then files
    else
      ActionsBefore(policy, actions);
      Play(policy, PlayAll(policy, files, actions[..|actions| - 1]), actions[|actions| - 1])
  }

  /** `actions`, all for one call, take `before` to `after`. */
  ghost predicate Performs(policy: Policy, call: Call, actions: seq<Action>, before: Files, after: Files) {
    && AreActions(policy, actions) && PlayAll(policy, before, actions) == after
    && forall i | 0 <= i < |actions| :: actions[i].call == call
  }

  lemma PerformMore(policy: Policy, call: Call, actions: seq<Action>, before: Files, after: Files, a: Action)
    requires Performs(policy, call, actions, before, after) && IsAction(policy, a) && a.call == call
    ensures Performs(policy, call, actions + [a], before, Play(policy, after, a))
  {
    var more := actions + [a];
    forall i | 0 <= i < |more| ensures IsAction(policy, more[i]) && more[i].call == call {
      assert i < |actions| ==> IsAction(policy, actions[i]) && actions[i].call == call;
    }
    assert more[..|actions|] == actions;
  }

  class FileSink {
    const policy: Policy
    var files: Files
    var lastSweep: Option<string>

    constructor (policy: Policy, files: Files)
      ensures this.policy == policy && this.files == files && lastSweep == None
    {
      this.policy := policy;
      this.files := files;
      lastSweep := None;
    }

    /** Remove the expired files, one by one. */
    method Sweep(call: Call) returns (ghost actions: seq<Action>)
      requires HasStamp(policy.rotation, call.now)
      modifies this`files
      ensures Performs(policy, call, actions, old(files), files)
      ensures files == if policy.keepHours.Some? && call.listable
                       then Swept(old(files), Stamp(policy.rotation, call.now),
                                  Cutoff(call.now, policy.keepHours.value), call.stuck)
                       else old(files)
    {
      actions := [];
      if policy.keepHours.None? || !call.listable {
        return;
      }
      var current := Stamp(policy.rotation, call.now);
      var cutoff := Cutoff(call.now, policy.keepHours.value);
      var left := files.Keys;
      while left != {}
        invariant left <= old(files).Keys && Performs(policy, call, actions, old(files), files)
        invariant forall f :: f in files <==>
          f in old(files) && (f in left || f in call.stuck || !Expired(f.name, current, cutoff))
        invariant forall f | f in files :: files[f] == old(files)[f]
      {
        var f :| f in left;
        left := left - {f};
        if Expired(f.name, current, cutoff) && f !in call.stuck {
          PerformMore(policy, call, actions, old(files), files, Removal(f, call));
          actions := actions + [Removal(f, call)];
          files := files - {f};
        }
      }
    }

    method Record(call: Call) returns (ok: bool, ghost actions: seq<Action>)
      requires HasStamp(policy.rotation, call.now)
      modifies this
      ensures Sink(files, lastSweep) == Recorded(policy, Sink(old(files), old(lastSweep)), call)
      ensures Performs(policy, call, actions, old(files), files)
      ensures ok <==> call.dirOk && call.appendOk
    {
      actions := [];
      if !call.dirOk {
        return false, actions;
      }
      var stamp := Stamp(policy.rotation, call.now);
      if policy.keepHours.Some? && lastSweep != Some(stamp) {
        actions := Sweep(call);
        lastSweep := Some(stamp);
      }
      if !call.appendOk {
        return false, actions;
      }
      var target := Target(policy.rotation, call);
      PerformMore(policy, call, actions, old(files), files, Append(call));
      actions := actions + [Append(call)];
      files := files[target := Contents(files, target) + [call.event]];
      ok := true;
    }
  }

  // ----- what a sweep may take -----

  /** A file the sink generated expires exactly when its window is not the current one and started before the cutoff. */
  lemma GeneratedExpires(rotation: Rotation, at: Instant, pid: nat, c: Category, current: string, cutoff: int)
    requires HasStamp(rotation, at)
    ensures var name := LogName(Stamp(rotation, at), pid, c);
            Expired(name, current, cutoff) <==>
              !(current + "-" <= name) && NANOS * (WindowStart(rotation, at) + Misreading(rotation, pid)) < cutoff
  {
    var name := LogName(Stamp(rotation, at), pid, c);
    NamesCarryTheirWindow(rotation, at, pid, c);
    LogNameEnds(Stamp(rotation, at), pid, c);
  }

  lemma LogNameEnds(stamp: string, pid: nat, c: Category)
    ensures var name := LogName(stamp, pid, c); |name| > 4 && name[|name| - 4..] == ".log"
  {
  }

  /** A record adds its event to the end of its file, whatever its own sweep removes. */
  lemma RecordAppends(policy: Policy, sink: Sink, call: Call)
    requires HasStamp(policy.rotation, call.now) && call.dirOk && call.appendOk
    ensures var target := Target(policy.rotation, call);
            Contents(Recorded(policy, sink, call).files, target) == Contents(sink.files, target) + [call.event]
  {
    var stamp := Stamp(policy.rotation, call.now);
    var tail := Tail(call.pid, CategoryOf(call.event.eventType));
    assert stamp + "-" <= Target(policy.rotation, call).name;
  }

  /** The file of a call: its window's stamp, the process, and the kind of event. */
  lemma TargetIs(rotation: Rotation, call: Call)
    requires HasStamp(rotation, call.now)
    ensures Target(rotation, call).name ==
      Stamp(rotation, call.now) + "-" + Decimal(call.pid)
      + (if call.event.eventType == "workflow.transition" then "-transitions.log"
         else if call.event.eventType == "agent.heartbeat" then "-heartbeat.log"
         else "-audit.log")
  {
    var c := CategoryText(CategoryOf(call.event.eventType));
    CategoryEnds(call.event.eventType);
    NameJoins(Stamp(rotation, call.now), Decimal(call.pid), c);
  }

  lemma NameJoins(stamp: string, pid: string, c: string)
    ensures stamp + "-" + (pid + "-" + c + ".log") == stamp + "-" + pid + ("-" + c + ".log")
  {
  }

  lemma CategoryEnds(eventType: string)
    ensures "-" + CategoryText(CategoryOf(eventType)) + ".log" ==
      if eventType == "workflow.transition" then "-transitions.log"
      else if eventType == "agent.heartbeat" then "-heartbeat.log"
      else "-audit.log"
  {
  }

  /** A sweep takes only files whose names end in `.log`, are not of the current window, and carry a date. */
  lemma SweepTakesOnlyLogs(policy: Policy, sink: Sink, call: Call, f: File)
    requires HasStamp(policy.rotation, call.now) && f in sink.files && f !in Recorded(policy, sink, call).files
    ensures |f.name| > 4 && f.name[|f.name| - 4..] == ".log" && ParseStamp(f.name).Some?
    ensures !(Stamp(policy.rotation, call.now) + "-" <= f.name) && f !in call.stuck
    ensures policy.keepHours.Some? && sink.lastSweep != Some(Stamp(policy.rotation, call.now))
  {
  }

  /** A due sweep removes every generated file of another window that started before the cutoff. */
  lemma SweepRemoves(policy: Policy, sink: Sink, call: Call, at: Instant, pid: nat, c: Category)
    requires HasStamp(policy.rotation, at) && HasStamp(policy.rotation, call.now)
    requires call.dirOk && call.listable && SweepDue(policy, sink.lastSweep, call.now)
    ensures var name := LogName(Stamp(policy.rotation, at), pid, c);
            && File(name) !in call.stuck
            && !(Stamp(policy.rotation, call.now) + "-" <= name)
            && TimeOf(call.now) - NANOS * (WindowStart(policy.rotation, at) + Misreading(policy.rotation, pid))
               > NANOS * 3600 * policy.keepHours.value
            ==> File(name) !in Recorded(policy, sink, call).files
  {
    var stamp := Stamp(policy.rotation, call.now);
    GeneratedExpires(policy.rotation, at, pid, c, stamp, Cutoff(call.now, policy.keepHours.value));
    assert stamp + "-" <= Target(policy.rotation, call).name;
  }

  /** At a call, the window of `at` started no longer ago than the hours to keep. */
  predicate Inside(policy: Policy, at: Instant, call: Call)
    requires IsInstant(at) && IsInstant(call.now)
  {
    policy.keepHours.Some? ==>
      TimeOf(call.now) - NANOS * WindowStart(policy.rotation, at) <= NANOS * 3600 * policy.keepHours.value
  }

  /** A call takes nothing from a file inside the retention, and nothing from any file if its window was swept already. */
  lemma StepRetains(policy: Policy, sink: Sink, call: Call, at: Instant, pid: nat, c: Category)
    requires HasStamp(policy.rotation, at) && HasStamp(policy.rotation, call.now)
    requires Inside(policy, at, call) || sink.lastSweep == Some(Stamp(policy.rotation, call.now))
    ensures var f := File(LogName(Stamp(policy.rotation, at), pid, c));
            Contents(sink.files, f) <= Contents(Recorded(policy, sink, call).files, f)
  {
    if policy.keepHours.Some? {
      GeneratedExpires(policy.rotation, at, pid, c, Stamp(policy.rotation, call.now),
                       Cutoff(call.now, policy.keepHours.value));
    }
  }

  lemma ActionRetains(policy: Policy, files: Files, a: Action, at: Instant, pid: nat, c: Category)
    requires HasStamp(policy.rotation, at) && IsAction(policy, a) && Inside(policy, at, a.call)
    ensures var f := File(LogName(Stamp(policy.rotation, at), pid, c));
            Contents(files, f) <= Contents(Play(policy, files, a), f)
  {
    if a.Removal? {
      GeneratedExpires(policy.rotation, at, pid, c, Stamp(policy.rotation, a.call.now),
                       Cutoff(a.call.now, policy.keepHours.value));
    }
  }

  /**
   Whatever file operations of any number of processes interleave, each process
   having decided on its removals whenever it listed the directory, a file keeps
   everything in it as long as its window starts within the retention.
   */
  lemma {:induction false} RunRetains(policy: Policy, files: Files, actions: seq<Action>, at: Instant, pid: nat,
                                      c: Category)
    requires HasStamp(policy.rotation, at) && AreActions(policy, actions)
    requires forall i | 0 <= i < |actions| :: IsAction(policy, actions[i]) && Inside(policy, at, actions[i].call)
    ensures var f := File(LogName(Stamp(policy.rotation, at), pid, c));
            Contents(files, f) <= Contents(PlayAll(policy, files, actions), f)
  {
    if actions == [] {
    } else {
      var n := |actions| - 1;
      ActionsBefore(policy, actions);
      RunRetains(policy, files, actions[..n], at, pid, c);
      ActionRetains(policy, PlayAll(policy, files, actions[..n]), actions[n], at, pid, c);
    }
  }
}
