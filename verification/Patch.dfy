/** Patching a workflow's code: which branch a run takes at the patch point, in its first execution and in every
    replay. */
module Patch {
  import opened Wrappers

  // ---------------------------------------------------------------- steps, replayed from the log by function ID

  datatype Entry = Entry(name: string, result: string)

  /** Deterministic code: from the results so far to the name of its next step, or its end. */
  type Branch = seq<string> -> Option<string>

  datatype Call = Call(id: nat, name: string, result: string)

  /** An execution: the steps it called, the log, the results it has seen, its function-ID counter, and the number of
      steps until it crashes. `ok` is lost when the log holds an unexpected step. */
  datatype Trace = Trace(calls: seq<Call>, log: seq<Entry>, seen: seq<string>, id: nat, ok: bool, left: nat)

  function Start(log: seq<Entry>, n: nat): Trace {
    Trace([], log, [], 0, true, n)
  }

  function Execute(b: Branch, oracle: nat -> string, t: Trace): Trace
    decreases t.left
  {
    if !t.ok || t.left == 0 || b(t.seen).None? then t
    else
      var name := b(t.seen).value;
      if t.id < |t.log| && t.log[t.id].name != name then t.(ok := false)
      else
        var r := if t.id < |t.log| then t.log[t.id].result else oracle(t.id);
        Execute(b, oracle, t.(calls := t.calls + [Call(t.id, name, r)], seen := t.seen + [r], id := t.id + 1,
                              log := if t.id < |t.log| then t.log else t.log + [Entry(name, r)], left := t.left - 1))
  }

  /** The log, from `id` on, is what `b` would write. */
  ghost predicate Follows(b: Branch, seen: seq<string>, id: nat, log: seq<Entry>)
    decreases |log| - id
  {
    id < |log| && b(seen).Some? ==>
      log[id].name == b(seen).value && Follows(b, seen + [log[id].result], id + 1, log)
  }

  /** Where `b`, replayed from the log, comes to its end: the results seen and the function ID. */
  function Point(b: Branch, seen: seq<string>, id: nat, log: seq<Entry>): (point: Option<(seq<string>, nat)>)
    ensures point.Some? && id <= |log| ==> id <= point.value.1 <= |log|
    decreases |log| - id
  {
    if b(seen).None? then Some((seen, id))
    else if id < |log| then Point(b, seen + [log[id].result], id + 1, log)
    else None
  }

  /** Following the log an execution meets no unexpected step, and what it adds follows too. */
  lemma {:induction false} ExecuteFollows(b: Branch, oracle: nat -> string, t: Trace)
    requires t.ok && t.id <= |t.log| && Follows(b, t.seen, t.id, t.log)
    ensures var u := Execute(b, oracle, t);
            u.ok && t.log <= u.log && u.id <= |u.log| && Follows(b, t.seen, t.id, u.log)
    decreases t.left
  {
    if t.left > 0 && b(t.seen).Some? {
      var name := b(t.seen).value;
      var r := if t.id < |t.log| then t.log[t.id].result else oracle(t.id);
      var log := if t.id < |t.log| then t.log else t.log + [Entry(name, r)];
      var next := t.(calls := t.calls + [Call(t.id, name, r)], seen := t.seen + [r], id := t.id + 1, log := log,
                     left := t.left - 1);
      ExecuteFollows(b, oracle, next);
      var u := Execute(b, oracle, next);
      assert u.log[t.id] == log[t.id];
    }
  }

  /** Whatever an execution adds, it adds at its own position, and the way on is the way from there. */
  lemma {:induction false} ExecuteMovesOn(b: Branch, oracle: nat -> string, t: Trace)
    requires t.ok && t.id <= |t.log| && Follows(b, t.seen, t.id, t.log)
    ensures var u := Execute(b, oracle, t);
            && t.id <= u.id <= |u.log| && (u.log == t.log || u.id == |u.log|)
            && Point(b, t.seen, t.id, u.log) == Point(b, u.seen, u.id, u.log)
            && u.left + u.id == t.left + t.id && (u.left == 0 || b(u.seen).None?)
    decreases t.left
  {
    if t.left > 0 && b(t.seen).Some? {
      var name := b(t.seen).value;
      var r := if t.id < |t.log| then t.log[t.id].result else oracle(t.id);
      var log := if t.id < |t.log| then t.log else t.log + [Entry(name, r)];
      var next := t.(calls := t.calls + [Call(t.id, name, r)], seen := t.seen + [r], id := t.id + 1, log := log,
                     left := t.left - 1);
      ExecuteMovesOn(b, oracle, next);
      ExecuteFollows(b, oracle, next);
      assert Execute(b, oracle, next).log[t.id] == log[t.id];
    }
  }

  /** The way to the point is settled once it is in the log. */
  lemma {:induction false} PointStays(b: Branch, seen: seq<string>, id: nat, log: seq<Entry>, more: seq<Entry>)
    requires log <= more && Point(b, seen, id, log).Some?
    ensures Point(b, seen, id, more) == Point(b, seen, id, log)
    ensures Follows(b, seen, id, more) == Follows(b, seen, id, log)
    decreases |log| - id
  {
    if b(seen).Some? {
      PointStays(b, seen + [log[id].result], id + 1, log, more);
    }
  }

  // ---------------------------------------------------------------- the patch check

  function Marker(patch: string): string {
    "DBOS.patch-" + patch
  }

  datatype Checked = Checked(isPatched: bool, hasEntry: bool, log: seq<Entry>)

  /** `patch` leaves a marker where nothing is recorded; `deprecatePatch` only steps over a marker. */
  function CheckOf(log: seq<Entry>, id: nat, patch: string, deprecated: bool): Checked {
    var marked := id < |log| && log[id].name == Marker(patch);
    if deprecated then Checked(true, marked, log)
    else if id < |log| then Checked(marked, marked, log)
    else Checked(true, true, log + [Entry(Marker(patch), "")])
  }

  // ---------------------------------------------------------------- versions of the code

  /** A workflow with a patch point: the code up to it, and what follows in the old and in the new program. */
  datatype Code = Code(before: Branch, oldBranch: Branch, newBranch: Branch, patch: string)

  datatype Version = Unpatched | Patched | Deprecated | Removed

  function FromPoint(c: Code, v: Version, oracle: nat -> string, t: Trace): Trace
    requires t.id <= |t.log|
  {
    match v
    case Unpatched => Execute(c.oldBranch, oracle, t)
    case Removed => Execute(c.newBranch, oracle, t)
    case _ =>
      var checked := CheckOf(t.log, t.id, c.patch, v.Deprecated?);
      Execute(if checked.isPatched then c.newBranch else c.oldBranch, oracle,
              t.(log := checked.log, id := if checked.hasEntry then t.id + 1 else t.id))
  }

  /** One execution of a version against a log, crashing after at most `n` steps, of which passing the point is one. */
  function RunVersion(c: Code, v: Version, oracle: nat -> string, log: seq<Entry>, n: nat): Trace {
    var t := Execute(c.before, oracle, Start(log, n));
    if t.ok && c.before(t.seen).None? && t.id <= |t.log| && t.left > 0
    then FromPoint(c, v, oracle, t.(left := t.left - 1)) else t
  }

  /** An execution stops at an unexpected step, at its crash, or where the code before the point goes on; one that
      gets to the point and no further has left a marker there if it is patched and nothing was recorded, and made no
      call. */
  lemma RunReachesPoint(c: Code, v: Version, oracle: nat -> string, log: seq<Entry>, n: nat)
    ensures var t, u := Execute(c.before, oracle, Start(log, n)), RunVersion(c, v, oracle, log, n);
            && (!t.ok || c.before(t.seen).Some? || t.left == 0 ==> u == t)
            && (t.ok && c.before(t.seen).None? && t.left == 1 && t.id <= |t.log| ==>
                  && u.ok && u.left == 0 && u.calls == t.calls && u.seen == t.seen
                  && u.log == if v.Patched? && t.id == |t.log| then t.log + [Entry(Marker(c.patch), "")] else t.log)
  {
  }

  /** The log of runs that at the point go on with `b`, after a marker if `marked`. */
  ghost predicate Fits(c: Code, b: Branch, marked: bool, log: seq<Entry>) {
    && Follows(c.before, [], 0, log)
    && var point := Point(c.before, [], 0, log);
       point.Some? ==>
         if marked then
           point.value.1 < |log| ==>
             log[point.value.1].name == Marker(c.patch) && Follows(b, point.value.0, point.value.1 + 1, log)
         else Follows(b, point.value.0, point.value.1, log)
  }

  /** Something is recorded at the point or after it. */
  ghost predicate PastPoint(c: Code, log: seq<Entry>) {
    var point := Point(c.before, [], 0, log);
    point.Some? && point.value.1 < |log|
  }

  /** Up to the point every version does the same, and stays on the log. */
  lemma ReachPoint(c: Code, oracle: nat -> string, log: seq<Entry>, n: nat) returns (t: Trace)
    requires Follows(c.before, [], 0, log)
    ensures t == Execute(c.before, oracle, Start(log, n)) && t.ok && log <= t.log && t.id <= |t.log|
    ensures Follows(c.before, [], 0, t.log)
    ensures c.before(t.seen).None? ==> Point(c.before, [], 0, t.log) == Some((t.seen, t.id))
    ensures t.left + t.id == n && (t.left == 0 || c.before(t.seen).None?)
    ensures t.log == log || (t.id == |t.log| && Point(c.before, [], 0, log).None?)
    ensures c.before(t.seen).Some? && t.log != log ==> Point(c.before, [], 0, t.log).None?
  {
    t := Execute(c.before, oracle, Start(log, n));
    ExecuteFollows(c.before, oracle, Start(log, n));
    ExecuteMovesOn(c.before, oracle, Start(log, n));
    if Point(c.before, [], 0, log).Some? {
      PointStays(c.before, [], 0, log, t.log);
    }
  }

  /** From the point on: an execution of `b` keeps the log fitting. */
  lemma BranchKeepsFit(c: Code, b: Branch, marked: bool, oracle: nat -> string, t: Trace, point: (seq<string>, nat))
    requires t.ok && t.id <= |t.log| && Follows(c.before, [], 0, t.log)
    requires Point(c.before, [], 0, t.log) == Some(point) && t.seen == point.0
    requires if marked then point.1 < |t.log| && t.log[point.1].name == Marker(c.patch) && t.id == point.1 + 1
             else t.id == point.1
    requires Follows(b, t.seen, t.id, t.log)
    ensures var u := Execute(b, oracle, t);
            u.ok && t.log <= u.log && Fits(c, b, marked, u.log) && Point(c.before, [], 0, u.log) == Some(point)
  {
    var u := Execute(b, oracle, t);
    ExecuteFollows(b, oracle, t);
    PointStays(c.before, [], 0, t.log, u.log);
  }

  /** Runs of one branch, without a marker, replay without an unexpected step: the old program, and the new one once
      the patch call is gone. */
  lemma UnmarkedRunFits(c: Code, v: Version, oracle: nat -> string, log: seq<Entry>, n: nat)
    requires v.Unpatched? || v.Removed?
    requires Fits(c, if v.Unpatched? then c.oldBranch else c.newBranch, false, log)
    ensures var u := RunVersion(c, v, oracle, log, n);
            u.ok && log <= u.log && Fits(c, if v.Unpatched? then c.oldBranch else c.newBranch, false, u.log)
  {
    var b := if v.Unpatched? then c.oldBranch else c.newBranch;
    var t := ReachPoint(c, oracle, log, n);
    if c.before(t.seen).None? && t.left > 0 {
      BranchKeepsFit(c, b, false, oracle, t.(left := t.left - 1), (t.seen, t.id));
    }
  }

  /** The step recorded at the point, if any, is not a marker. */
  ghost predicate PastPointUnmarked(c: Code, log: seq<Entry>) {
    PastPoint(c, log) && log[Point(c.before, [], 0, log).value.1].name != Marker(c.patch)
  }

  /** A run the old program recorded past the point is replayed by the patched program exactly as by the old one. */
  lemma OldRunReplays(c: Code, oracle: nat -> string, log: seq<Entry>, n: nat)
    requires Fits(c, c.oldBranch, false, log) && PastPointUnmarked(c, log)
    ensures RunVersion(c, Patched, oracle, log, n) == RunVersion(c, Unpatched, oracle, log, n)
    ensures var u := RunVersion(c, Patched, oracle, log, n);
            u.ok && log <= u.log && Fits(c, c.oldBranch, false, u.log) && PastPointUnmarked(c, u.log)
  {
    var t := ReachPoint(c, oracle, log, n);
    UnmarkedRunFits(c, Unpatched, oracle, log, n);
    PointStays(c.before, [], 0, log, RunVersion(c, Unpatched, oracle, log, n).log);
  }

  lemma NewBranchFromPoint(c: Code, v: Version, oracle: nat -> string, t: Trace)
    requires t.ok && t.id <= |t.log| && Fits(c, c.newBranch, true, t.log)
    requires Point(c.before, [], 0, t.log) == Some((t.seen, t.id))
    requires v.Patched? || (v.Deprecated? && t.id < |t.log|)
    ensures var u := FromPoint(c, v, oracle, t); u.ok && t.log <= u.log && Fits(c, c.newBranch, true, u.log)
  {
    var checked := CheckOf(t.log, t.id, c.patch, v.Deprecated?);
    PointStays(c.before, [], 0, t.log, checked.log);
    BranchKeepsFit(c, c.newBranch, true, oracle, t.(log := checked.log, id := t.id + 1), (t.seen, t.id));
  }

  /** A run that came to the point and found nothing there, or a marker, takes the new branch behind the marker: now,
      and in every replay by the patched or, once the marker is there, the deprecating program. */
  lemma NewRunStaysNew(c: Code, v: Version, oracle: nat -> string, log: seq<Entry>, n: nat)
    requires v.Patched? || (v.Deprecated? && PastPoint(c, log))
    requires Fits(c, c.newBranch, true, log)
    ensures var u := RunVersion(c, v, oracle, log, n);
            u.ok && log <= u.log && Fits(c, c.newBranch, true, u.log) && (PastPoint(c, log) ==> PastPoint(c, u.log))
    ensures PastPoint(c, log) ==> RunVersion(c, Deprecated, oracle, log, n) == RunVersion(c, Patched, oracle, log, n)
  {
    var t := ReachPoint(c, oracle, log, n);
    if c.before(t.seen).None? && t.left > 0 {
      NewBranchFromPoint(c, v, oracle, t.(left := t.left - 1));
    }
    if PastPoint(c, log) {
      PointStays(c.before, [], 0, log, RunVersion(c, v, oracle, log, n).log);
    }
  }

  // ---------------------------------------------------------------- one execution after another

  datatype Job = Job(version: Version, oracle: nat -> string, n: nat)

  function LogAfter(c: Code, log: seq<Entry>, jobs: seq<Job>): seq<Entry>
    decreases |jobs|
  {
    if jobs == [] then log
    else LogAfter(c, RunVersion(c, jobs[0].version, jobs[0].oracle, log, jobs[0].n).log, jobs[1..])
  }

  ghost predicate AllReplay(c: Code, log: seq<Entry>, jobs: seq<Job>)
    decreases |jobs|
  {
    jobs == [] ||
    var u := RunVersion(c, jobs[0].version, jobs[0].oracle, log, jobs[0].n);
    u.ok && AllReplay(c, u.log, jobs[1..])
  }

  /** Old runs past the point stay on the old branch through any mixture of old and patched executions. */
  lemma {:induction false} OldRunsStayOld(c: Code, log: seq<Entry>, jobs: seq<Job>)
    requires Fits(c, c.oldBranch, false, log) && PastPointUnmarked(c, log)
    requires forall j :: j in jobs ==> j.version.Unpatched? || j.version.Patched?
    ensures AllReplay(c, log, jobs) && Fits(c, c.oldBranch, false, LogAfter(c, log, jobs))
    decreases |jobs|
  {
    if jobs != [] {
      OldRunReplays(c, jobs[0].oracle, log, jobs[0].n);
      OldRunsStayOld(c, RunVersion(c, jobs[0].version, jobs[0].oracle, log, jobs[0].n).log, jobs[1..]);
    }
  }

  /** A run the old program began and that has nothing at the point yet is as good as new. */
  lemma UnfinishedRunIsNew(c: Code, log: seq<Entry>)
    requires Fits(c, c.oldBranch, false, log) && !PastPoint(c, log)
    ensures Fits(c, c.newBranch, true, log)
  {
  }

  /** What stands at the point was written by `b`. */
  ghost predicate WrittenAtPoint(c: Code, b: Branch, log: seq<Entry>) {
    PastPoint(c, log) ==> b(Point(c.before, [], 0, log).value.0).Some?
  }

  lemma UnmarkedRunWritesPoint(c: Code, v: Version, oracle: nat -> string, log: seq<Entry>, n: nat)
    requires v.Unpatched? || v.Removed?
    requires var b := if v.Unpatched? then c.oldBranch else c.newBranch;
             Fits(c, b, false, log) && WrittenAtPoint(c, b, log)
    ensures WrittenAtPoint(c, if v.Unpatched? then c.oldBranch else c.newBranch, RunVersion(c, v, oracle, log, n).log)
  {
    var b := if v.Unpatched? then c.oldBranch else c.newBranch;
    var u := RunVersion(c, v, oracle, log, n);
    var t := ReachPoint(c, oracle, log, n);
    UnmarkedRunFits(c, v, oracle, log, n);
    if PastPoint(c, log) {
      PointStays(c.before, [], 0, log, u.log);
    } else if c.before(t.seen).None? {
      if t.left > 0 { ExecuteFollows(b, oracle, t.(left := t.left - 1)); }
      PointStays(c.before, [], 0, t.log, u.log);
    }
  }

  ghost predicate NeverMarks(c: Code, b: Branch) {
    forall seen :: b(seen) != Some(Marker(c.patch))
  }

  lemma WrittenIsUnmarked(c: Code, b: Branch, log: seq<Entry>)
    requires Fits(c, b, false, log) && WrittenAtPoint(c, b, log) && NeverMarks(c, b) && PastPoint(c, log)
    ensures PastPointUnmarked(c, log)
  {
    var point := Point(c.before, [], 0, log).value;
    assert log[point.1].name == b(point.0).value;
  }

  lemma {:induction false} OldRunsFit(c: Code, log: seq<Entry>, jobs: seq<Job>)
    requires Fits(c, c.oldBranch, false, log) && WrittenAtPoint(c, c.oldBranch, log)
    requires forall j :: j in jobs ==> j.version.Unpatched?
    ensures AllReplay(c, log, jobs)
    ensures Fits(c, c.oldBranch, false, LogAfter(c, log, jobs))
    ensures WrittenAtPoint(c, c.oldBranch, LogAfter(c, log, jobs))
    decreases |jobs|
  {
    if jobs != [] {
      UnmarkedRunFits(c, Unpatched, jobs[0].oracle, log, jobs[0].n);
      UnmarkedRunWritesPoint(c, Unpatched, jobs[0].oracle, log, jobs[0].n);
      OldRunsFit(c, RunVersion(c, jobs[0].version, jobs[0].oracle, log, jobs[0].n).log, jobs[1..]);
    }
  }

  /** After `deprecatePatch` has been deployed for good, its runs replay the same without the call. */
  lemma RemovalChangesNothing(c: Code, oracle: nat -> string, log: seq<Entry>, n: nat)
    requires Fits(c, c.newBranch, false, log) && (PastPoint(c, log) ==> PastPointUnmarked(c, log))
    ensures RunVersion(c, Deprecated, oracle, log, n) == RunVersion(c, Removed, oracle, log, n)
    ensures RunVersion(c, Removed, oracle, log, n).ok
  {
    var t := ReachPoint(c, oracle, log, n);
    UnmarkedRunFits(c, Removed, oracle, log, n);
  }

  /** The log of a run on the new branch, behind a marker or without one. */
  ghost predicate IsNew(c: Code, log: seq<Entry>) {
    Fits(c, c.newBranch, true, log) || (Fits(c, c.newBranch, false, log) && WrittenAtPoint(c, c.newBranch, log))
  }

  /** Which version may meet a log of the new branch: `deprecatePatch` any, `patch` one that was not written without a
      marker, the program without the call one that was not written with it. */
  ghost predicate MayMeet(c: Code, v: Version, log: seq<Entry>) {
    match v
    case Patched => !PastPointUnmarked(c, log)
    case Deprecated => true
    case Removed => PastPoint(c, log) ==> PastPointUnmarked(c, log)
    case Unpatched => false
  }

  ghost predicate Deployed(c: Code, log: seq<Entry>, jobs: seq<Job>)
    decreases |jobs|
  {
    jobs == [] ||
    (MayMeet(c, jobs[0].version, log) &&
     Deployed(c, RunVersion(c, jobs[0].version, jobs[0].oracle, log, jobs[0].n).log, jobs[1..]))
  }

  lemma UnmarkedStaysNew(c: Code, v: Version, oracle: nat -> string, log: seq<Entry>, n: nat)
    requires IsNew(c, log) && (v.Deprecated? || v.Removed?) && (PastPoint(c, log) ==> PastPointUnmarked(c, log))
    ensures var u := RunVersion(c, v, oracle, log, n); u.ok && log <= u.log && IsNew(c, u.log)
  {
    RemovalChangesNothing(c, oracle, log, n);
    UnmarkedRunFits(c, Removed, oracle, log, n);
    UnmarkedRunWritesPoint(c, Removed, oracle, log, n);
  }

  /** One execution on the new branch, of any version that may meet its log. */
  lemma NewJobReplays(c: Code, v: Version, oracle: nat -> string, log: seq<Entry>, n: nat)
    requires IsNew(c, log) && MayMeet(c, v, log) && NeverMarks(c, c.newBranch)
    ensures var u := RunVersion(c, v, oracle, log, n); u.ok && log <= u.log && IsNew(c, u.log)
  {
    if PastPoint(c, log) && !Fits(c, c.newBranch, true, log) {
      WrittenIsUnmarked(c, c.newBranch, log);
    }
    if v.Patched? || (PastPoint(c, log) && !PastPointUnmarked(c, log)) {
      NewRunStaysNew(c, v, oracle, log, n);
    } else {
      UnmarkedStaysNew(c, v, oracle, log, n);
    }
  }

  /** Runs that had nothing at the point stay on the new branch, in any mixture of versions that may meet their logs. */
  lemma {:induction false} NewRunsStayNew(c: Code, log: seq<Entry>, jobs: seq<Job>)
    requires IsNew(c, log) && Deployed(c, log, jobs) && NeverMarks(c, c.newBranch)
    ensures AllReplay(c, log, jobs) && IsNew(c, LogAfter(c, log, jobs))
    decreases |jobs|
  {
    if jobs != [] {
      NewJobReplays(c, jobs[0].version, jobs[0].oracle, log, jobs[0].n);
      NewRunsStayNew(c, RunVersion(c, jobs[0].version, jobs[0].oracle, log, jobs[0].n).log, jobs[1..]);
    }
  }

  lemma {:induction false} DeprecatingIsDeployed(c: Code, log: seq<Entry>, jobs: seq<Job>)
    requires forall j :: j in jobs ==> j.version.Deprecated?
    ensures Deployed(c, log, jobs)
    decreases |jobs|
  {
    if jobs != [] {
      DeprecatingIsDeployed(c, RunVersion(c, jobs[0].version, jobs[0].oracle, log, jobs[0].n).log, jobs[1..]);
    }
  }

  /** The documented rollout is such a mixture: first the patched program, then the deprecating one, whether or not a
      run has come to the point in between. */
  lemma {:induction false} RolloutIsDeployed(c: Code, log: seq<Entry>, patched: seq<Job>, deprecating: seq<Job>)
    requires Fits(c, c.newBranch, true, log)
    requires forall j :: j in patched ==> j.version.Patched?
    requires forall j :: j in deprecating ==> j.version.Deprecated?
    ensures Deployed(c, log, patched + deprecating)
    decreases |patched|
  {
    if patched == [] {
      assert patched + deprecating == deprecating;
      DeprecatingIsDeployed(c, log, deprecating);
    } else {
      var j := patched[0];
      NewRunStaysNew(c, Patched, j.oracle, log, j.n);
      RolloutIsDeployed(c, RunVersion(c, Patched, j.oracle, log, j.n).log, patched[1..], deprecating);
      assert (patched + deprecating)[1..] == patched[1..] + deprecating;
    }
  }

  /** A workflow in flight when the patch is deployed: however often the old program ran and crashed, everything
      replays; if it had come past the point the old branch is kept, and if not, it goes on as a new run. */
  lemma PatchingMidway(c: Code, first: seq<Job>, jobs: seq<Job>)
    requires forall j :: j in first ==> j.version.Unpatched?
    requires NeverMarks(c, c.oldBranch) && NeverMarks(c, c.newBranch)
    ensures AllReplay(c, [], first)
    ensures var log := LogAfter(c, [], first);
            if PastPoint(c, log) then
              (forall j :: j in jobs ==> j.version.Unpatched? || j.version.Patched?) ==>
                AllReplay(c, log, jobs) && Fits(c, c.oldBranch, false, LogAfter(c, log, jobs))
            else
              Deployed(c, log, jobs) ==> AllReplay(c, log, jobs) && IsNew(c, LogAfter(c, log, jobs))
  {
    var log := LogAfter(c, [], first);
    OldRunsFit(c, [], first);
    if PastPoint(c, log) {
      WrittenIsUnmarked(c, c.oldBranch, log);
      if forall j :: j in jobs ==> j.version.Unpatched? || j.version.Patched? {
        OldRunsStayOld(c, log, jobs);
      }
    } else {
      UnfinishedRunIsNew(c, log);
      if Deployed(c, log, jobs) {
        NewRunsStayNew(c, log, jobs);
      }
    }
  }

  /** Old program, then patched, then deprecating: a workflow that was short of the point when the patch came replays
      all the way, on the new branch. */
  lemma RolloutReplays(c: Code, first: seq<Job>, patched: seq<Job>, deprecating: seq<Job>)
    requires forall j :: j in first ==> j.version.Unpatched?
    requires forall j :: j in patched ==> j.version.Patched?
    requires forall j :: j in deprecating ==> j.version.Deprecated?
    requires NeverMarks(c, c.oldBranch) && NeverMarks(c, c.newBranch) && !PastPoint(c, LogAfter(c, [], first))
    ensures var log := LogAfter(c, [], first);
            AllReplay(c, log, patched + deprecating) && IsNew(c, LogAfter(c, log, patched + deprecating))
  {
    var log := LogAfter(c, [], first);
    PatchingMidway(c, first, patched + deprecating);
    OldRunsFit(c, [], first);
    UnfinishedRunIsNew(c, log);
    RolloutIsDeployed(c, log, patched, deprecating);
  }

  lemma {:induction false} OffTheLogFails(b: Branch, oracle: nat -> string, t: Trace)
    requires t.ok && t.id <= |t.log| && t.left >= |t.log| - t.id
    ensures Execute(b, oracle, t).ok <==> Follows(b, t.seen, t.id, t.log)
    decreases t.left
  {
    if t.id < |t.log| && b(t.seen).Some? && t.log[t.id].name == b(t.seen).value {
      var r := t.log[t.id].result;
      OffTheLogFails(b, oracle, t.(calls := t.calls + [Call(t.id, b(t.seen).value, r)], seen := t.seen + [r],
                                   id := t.id + 1, left := t.left - 1));
    } else if Follows(b, t.seen, t.id, t.log) {
      ExecuteFollows(b, oracle, t);
    }
  }

  /** `deprecatePatch` too early: a run of the old program past the point replays without an unexpected step exactly
      when the new branch would have made the same steps. */
  lemma DeprecatingEarlyIsExact(c: Code, log: seq<Entry>)
    requires Fits(c, c.oldBranch, false, log) && PastPointUnmarked(c, log)
    ensures var point := Point(c.before, [], 0, log).value;
            (forall oracle, n :: RunVersion(c, Deprecated, oracle, log, n).ok)
            <==> Follows(c.newBranch, point.0, point.1, log)
  {
    var point := Point(c.before, [], 0, log).value;
    if Follows(c.newBranch, point.0, point.1, log) {
      forall oracle, n ensures RunVersion(c, Deprecated, oracle, log, n).ok {
        var t := ReachPoint(c, oracle, log, n);
        if c.before(t.seen).None? && t.left > 0 {
          ExecuteFollows(c.newBranch, oracle, t.(left := t.left - 1));
        }
      }
    } else {
      var oracle := (id: nat) => "";
      var n := |log| + 2;
      var t := ReachPoint(c, oracle, log, n);
      OffTheLogFails(c.newBranch, oracle, t.(left := t.left - 1));
      assert !RunVersion(c, Deprecated, oracle, log, n).ok;
    }
  }

  // ---------------------------------------------------------------- the calls

  /** One workflow's rows of operation_outputs and the function-ID counter of the execution that is running it. */
  class PatchContext {
    var operationOutputs: seq<Entry>
    var functionID: nat

    constructor (log: seq<Entry>, functionID: nat)
      ensures operationOutputs == log && this.functionID == functionID
    {
      operationOutputs, this.functionID := log, functionID;
    }

    method CheckPatch(patch: string, deprecated: bool) returns (isPatched: bool, hasEntry: bool)
      requires functionID <= |operationOutputs|
      modifies this`operationOutputs
      ensures Checked(isPatched, hasEntry, operationOutputs)
           == CheckOf(old(operationOutputs), functionID, patch, deprecated)
    {
      var none := functionID >= |operationOutputs|;
      if deprecated {
        if none { return true, false; }
        return true, operationOutputs[functionID].name == Marker(patch);
      }
      if !none {
        if operationOutputs[functionID].name == Marker(patch) { return true, true; }
        return false, false;
      }
      operationOutputs := operationOutputs + [Entry(Marker(patch), "")];
      return true, true;
    }

    /** `patch` and `deprecatePatch`: the counter moves over the marker and over nothing else. */
    method Patch(patch: string, deprecated: bool) returns (isPatched: bool)
      requires functionID <= |operationOutputs|
      modifies this
      ensures var checked := CheckOf(old(operationOutputs), old(functionID), patch, deprecated);
              && isPatched == checked.isPatched && operationOutputs == checked.log
              && functionID == if checked.hasEntry then old(functionID) + 1 else old(functionID)
      ensures functionID == old(functionID) + 1 <==>
                old(functionID) < |operationOutputs| && operationOutputs[old(functionID)].name == Marker(patch)
    {
      var hasEntry;
      isPatched, hasEntry := CheckPatch(patch, deprecated);
      if hasEntry {
        functionID := functionID + 1;
      }
    }
  }

  /** The SELECT read `log`; the INSERT .. ON CONFLICT DO NOTHING meets `later`, to which others may have added. */
  function CheckRacing(log: seq<Entry>, later: seq<Entry>, id: nat, patch: string): Checked
    requires log <= later && id <= |log|
  {
    if id < |log| then CheckOf(log, id, patch, false).(log := later)
    else if id < |later| then Checked(true, true, later)
    else Checked(true, true, later + [Entry(Marker(patch), "")])
  }

  /** What `patch` answers is what it answers ever after, unless between its two statements another execution records
      an ordinary step there. */
  lemma DecisionIsFinal(log: seq<Entry>, later: seq<Entry>, id: nat, patch: string)
    requires log <= later && id <= |log|
    ensures var first := CheckRacing(log, later, id, patch);
            && (first.isPatched <==> id < |log| ==> log[id].name == Marker(patch))
            && first.log == (if id < |later| then later else later + [Entry(Marker(patch), "")])
    ensures var first := CheckRacing(log, later, id, patch);
            (forall more :: first.log <= more ==> CheckOf(more, id, patch, false) == first.(log := more))
            <==> !(id == |log| < |later| && later[id].name != Marker(patch))
  {
    var first := CheckRacing(log, later, id, patch);
    if id == |log| < |later| && later[id].name != Marker(patch) {
      assert CheckOf(first.log, id, patch, false) != first;
    }
  }
}
