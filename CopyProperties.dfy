/** What the copy run promises, stated over the pass specification `Loop`: which records are
    touched, which fail, when the pass stops, what a demonstration leaves alone, and what
    the duplicate guard catches. `Pass` and `Run` are proved equal to `Loop`, so each of these
    holds for them too. */
module CopyProperties {
  import opened Wrappers
  import opened Enumerations
  import opened Paths
  import opened Platform
  import opened CameraSettings
  import opened AttributeExtensions
  import opened CameraLoading
  import opened CameraCopying

  // ---- one record ----

  /** The pass stops after a record only through the progress observer, or through the
      cancellation observed while the record's own operation is pending. */
  lemma HandleHalt(k: nat, input: Input, copyType: CopyType, interrupt: Interrupt, s: State,
                   cameras: seq<CameraSetting>, env: Env)
    ensures var r := Handle(k, input, copyType, interrupt, s, cameras, env);
      || r.halt == Observe(interrupt, k)
      || (interrupt == Cancel(k, true) && input.snapshot.selected && r.halt == HaltCanceled(TaskCanceledMessage))
  {
    hide TransferOf, GetDirectoryName, Guard.Add;
  }

  /** The failure counter goes up exactly when the record ends Failed. */
  lemma HandleFailed(k: nat, input: Input, copyType: CopyType, interrupt: Interrupt, s: State,
                     cameras: seq<CameraSetting>, env: Env)
    ensures var r := Handle(k, input, copyType, interrupt, s, cameras, env);
      r.state.counts.failed == s.counts.failed + (if r.snapshot.status == StatusType.Failed then 1 else 0)
  {
    hide GetDirectoryName, Guard.Add, TransferOf;
  }

  /** An unselected record involves no file operation: it is marked Skipped, or kept as it
      is when it already succeeded. */
  lemma HandleUnselected(k: nat, input: Input, copyType: CopyType, interrupt: Interrupt, s: State,
                         cameras: seq<CameraSetting>, env: Env)
    requires !input.snapshot.selected
    ensures var r := Handle(k, input, copyType, interrupt, s, cameras, env);
      && r.state.disk == s.disk && r.state.guard == s.guard && r.state.eject == s.eject
      && r.snapshot == (if input.snapshot.status == StatusType.Success then input.snapshot
                        else Snapshot(false, StatusType.Skipped, Null))
  {
  }

  /** The duplicate guard only grows. */
  lemma HandleGuardGrows(k: nat, input: Input, copyType: CopyType, interrupt: Interrupt, s: State,
                         cameras: seq<CameraSetting>, env: Env, dir: string, name: string)
    requires s.guard.Has(dir, name)
    ensures Handle(k, input, copyType, interrupt, s, cameras, env).state.guard.Has(dir, name)
  {
    hide TransferOf, GetDirectoryName;
  }

  /** A selected record whose destination's folder and name are already in the guard ends
      Failed, whatever the mode. */
  lemma HandleDuplicate(k: nat, input: Input, copyType: CopyType, interrupt: Interrupt, s: State,
                        cameras: seq<CameraSetting>, env: Env, destination: string)
    requires input.snapshot.selected && input.job.destination == Ok(destination)
    requires GetDirectoryName(destination).Some?
    requires s.guard.Has(GetDirectoryName(destination).value, GetFileName(destination))
    ensures var r := Handle(k, input, copyType, interrupt, s, cameras, env);
      r.snapshot.selected && r.snapshot.status == StatusType.Failed
  {
    hide Operate, FollowUp, Guard.Add;
  }

  /** Outside Rename mode, a selected record with a rooted destination that ends Success has
      put its destination's folder and name into the guard. */
  lemma HandleRecords(k: nat, input: Input, copyType: CopyType, interrupt: Interrupt, s: State,
                      cameras: seq<CameraSetting>, env: Env, destination: string)
    requires input.snapshot.selected && copyType != CopyType.Rename
    requires input.job.destination == Ok(destination) && IsPathRooted(destination)
    requires Handle(k, input, copyType, interrupt, s, cameras, env).snapshot.status == StatusType.Success
    ensures GetDirectoryName(destination).Some?
    ensures Handle(k, input, copyType, interrupt, s, cameras, env).state.guard
              .Has(GetDirectoryName(destination).value, GetFileName(destination))
  {
    hide MakeAndModelOf, PlaceOf, Combine;
  }

  /** A demonstration touches neither the file system nor the eject list. */
  lemma HandleDemonstration(k: nat, input: Input, interrupt: Interrupt, s: State,
                            cameras: seq<CameraSetting>, env: Env)
    ensures var r := Handle(k, input, CopyType.Demonstration, interrupt, s, cameras, env);
      r.state.disk == s.disk && r.state.eject == s.eject
  {
    hide TransferOf, GetDirectoryName, Guard.Add;
  }

  /** Only removable drives are ever collected for ejection. */
  lemma HandleEjects(k: nat, input: Input, copyType: CopyType, interrupt: Interrupt, s: State,
                     cameras: seq<CameraSetting>, env: Env)
    requires s.eject <= env.removableDrives
    ensures Handle(k, input, copyType, interrupt, s, cameras, env).state.eject <= env.removableDrives
  {
    hide TransferOf, GetDirectoryName, Guard.Add;
  }

  // ---- the pass ----

  /** One more record extends the pass: the earlier records keep their fields, and a pass
      that had stopped stays as it was. */
  lemma LoopExtends(inputs: seq<Input>, copyType: CopyType, interrupt: Interrupt,
                    cameras: seq<CameraSetting>, env: Env, disk: Disk)
    requires inputs != []
    ensures var p := Loop(inputs, copyType, interrupt, cameras, env, disk);
      var q := Loop(inputs[..|inputs| - 1], copyType, interrupt, cameras, env, disk);
      && p.snapshots[..|inputs| - 1] == q.snapshots && q.reached <= p.reached
      && (!q.halt.Going? ==> p.reached == q.reached && p.halt == q.halt && p.state == q.state)
  {
    hide Handle;
  }

  /** The pass over a prefix of the records agrees with the whole pass on that prefix, and
      a pass that stopped within the prefix stops there. */
  lemma {:induction false} LoopPrefix(inputs: seq<Input>, i: nat, copyType: CopyType, interrupt: Interrupt,
                                      cameras: seq<CameraSetting>, env: Env, disk: Disk)
    requires i <= |inputs|
    ensures var p := Loop(inputs, copyType, interrupt, cameras, env, disk);
      var q := Loop(inputs[..i], copyType, interrupt, cameras, env, disk);
      && p.snapshots[..i] == q.snapshots && q.reached <= p.reached
      && (!q.halt.Going? ==> p.reached == q.reached && p.halt == q.halt && p.state == q.state)
    decreases |inputs|
  {
    hide Handle, Loop;
    if i == |inputs| {
      assert inputs[..i] == inputs;
    } else {
      var n := |inputs| - 1;
      assert inputs[..n][..i] == inputs[..i];
      LoopPrefix(inputs[..n], i, copyType, interrupt, cameras, env, disk);
      LoopExtends(inputs, copyType, interrupt, cameras, env, disk);
      var p := Loop(inputs, copyType, interrupt, cameras, env, disk);
      assert p.snapshots[..i] == p.snapshots[..n][..i];
    }
  }

  /** Record `k` of the pass: either the pass reached it, and its new fields are what `Handle`
      gives at the state the records before it left, or it did not, and its fields are
      untouched. */
  lemma LoopRecord(inputs: seq<Input>, k: nat, copyType: CopyType, interrupt: Interrupt,
                   cameras: seq<CameraSetting>, env: Env, disk: Disk)
    requires k < |inputs|
    ensures var p := Loop(inputs, copyType, interrupt, cameras, env, disk);
      var q := Loop(inputs[..k], copyType, interrupt, cameras, env, disk);
      var step := Handle(k, inputs[k], copyType, interrupt, q.state, cameras, env);
      && (k < p.reached ==>
            && q.halt.Going? && !TopCancel(interrupt, k)
            && p.snapshots[k] == step.snapshot
            && Loop(inputs[..k + 1], copyType, interrupt, cameras, env, disk).state == step.state)
      && (p.reached <= k ==> p.snapshots[k] == inputs[k].snapshot)
  {
    hide Handle, Loop;
    LoopNext(inputs, k, copyType, interrupt, cameras, env, disk);
    LoopPrefix(inputs, k + 1, copyType, interrupt, cameras, env, disk);
    var m := Loop(inputs[..k + 1], copyType, interrupt, cameras, env, disk);
    assert Loop(inputs, copyType, interrupt, cameras, env, disk).snapshots[k] == m.snapshots[k];
  }

  /** Entries of the duplicate guard are never removed. */
  lemma {:induction false} LoopGuardGrows(inputs: seq<Input>, i: nat, k: nat, copyType: CopyType, interrupt: Interrupt,
                                          cameras: seq<CameraSetting>, env: Env, disk: Disk, dir: string, name: string)
    requires i <= k <= |inputs|
    requires Loop(inputs[..i], copyType, interrupt, cameras, env, disk).state.guard.Has(dir, name)
    ensures Loop(inputs[..k], copyType, interrupt, cameras, env, disk).state.guard.Has(dir, name)
    decreases k
  {
    hide Handle, Loop, Guard.Has;
    if i < k {
      LoopGuardGrows(inputs, i, k - 1, copyType, interrupt, cameras, env, disk, dir, name);
      LoopNext(inputs, k - 1, copyType, interrupt, cameras, env, disk);
      var q := Loop(inputs[..k - 1], copyType, interrupt, cameras, env, disk);
      HandleGuardGrows(k - 1, inputs[k - 1], copyType, interrupt, q.state, cameras, env, dir, name);
    }
  }

  /** The duplicate guard across records: outside Rename mode, once a selected record with a
      rooted destination has succeeded, a later selected record with the same destination
      fails. */
  lemma LoopDuplicate(inputs: seq<Input>, j: nat, k: nat, copyType: CopyType, interrupt: Interrupt,
                      cameras: seq<CameraSetting>, env: Env, disk: Disk, destination: string)
    requires j < k < Loop(inputs, copyType, interrupt, cameras, env, disk).reached
    requires copyType != CopyType.Rename && IsPathRooted(destination)
    requires inputs[j].snapshot.selected && inputs[j].job.destination == Ok(destination)
    requires inputs[k].snapshot.selected && inputs[k].job.destination == Ok(destination)
    requires Loop(inputs, copyType, interrupt, cameras, env, disk).snapshots[j].status == StatusType.Success
    ensures Loop(inputs, copyType, interrupt, cameras, env, disk).snapshots[k].status == StatusType.Failed
  {
    hide Handle, Loop, Guard.Has;
    LoopRecord(inputs, j, copyType, interrupt, cameras, env, disk);
    LoopRecord(inputs, k, copyType, interrupt, cameras, env, disk);
    var qj := Loop(inputs[..j], copyType, interrupt, cameras, env, disk);
    var qk := Loop(inputs[..k], copyType, interrupt, cameras, env, disk);
    HandleRecords(j, inputs[j], copyType, interrupt, qj.state, cameras, env, destination);
    var dir, name := GetDirectoryName(destination).value, GetFileName(destination);
    LoopGuardGrows(inputs, j + 1, k, copyType, interrupt, cameras, env, disk, dir, name);
    HandleDuplicate(k, inputs[k], copyType, interrupt, qk.state, cameras, env, destination);
  }

  /** The records among `snapshots` that are Failed. */
  function Failures(snapshots: seq<Snapshot>): (n: nat)
    ensures n <= |snapshots|
  {
    if snapshots == [] then 0
    else Failures(snapshots[..|snapshots| - 1]) + (if snapshots[|snapshots| - 1].status == StatusType.Failed then 1 else 0)
  }

  /** Counting one more snapshot. */
  lemma FailuresSnoc(snapshots: seq<Snapshot>, last: Snapshot)
    ensures Failures(snapshots + [last]) == Failures(snapshots) + (if last.status == StatusType.Failed then 1 else 0)
  {
    assert (snapshots + [last])[..|snapshots|] == snapshots;
  }

  /** The failure counter of the summary is the number of records the pass left Failed. */
  lemma {:induction false} LoopFailures(inputs: seq<Input>, copyType: CopyType, interrupt: Interrupt,
                                        cameras: seq<CameraSetting>, env: Env, disk: Disk)
    ensures var p := Loop(inputs, copyType, interrupt, cameras, env, disk);
      p.state.counts.failed == Failures(p.snapshots[..p.reached])
    decreases |inputs|
  {
    hide Handle, Loop, Failures;
    var p := Loop(inputs, copyType, interrupt, cameras, env, disk);
    if inputs == [] {
      LoopStart(inputs, copyType, interrupt, cameras, env, disk);
      assert inputs[..0] == inputs;
    } else {
      var k := |inputs| - 1;
      var q := Loop(inputs[..k], copyType, interrupt, cameras, env, disk);
      LoopFailures(inputs[..k], copyType, interrupt, cameras, env, disk);
      LoopNext(inputs, k, copyType, interrupt, cameras, env, disk);
      assert inputs[..k + 1] == inputs;
      if !q.halt.Going? || TopCancel(interrupt, k) {
        assert p.reached == q.reached && p.snapshots == q.snapshots + [inputs[k].snapshot];
        assert p.snapshots[..p.reached] == q.snapshots[..q.reached];
      } else {
        HandleFailed(k, inputs[k], copyType, interrupt, q.state, cameras, env);
        assert p.snapshots[..p.reached] == q.snapshots[..q.reached] + [p.snapshots[k]];
        FailuresSnoc(q.snapshots[..q.reached], p.snapshots[k]);
      }
    }
  }

  /** Whether `interrupt` leaves the records before `k` alone. */
  predicate QuietBefore(interrupt: Interrupt, k: nat) {
    interrupt.Uninterrupted? || k <= interrupt.index
  }

  /** While nothing interrupts it, the pass goes on. */
  lemma {:induction false} LoopQuiet(inputs: seq<Input>, k: nat, copyType: CopyType, interrupt: Interrupt,
                                     cameras: seq<CameraSetting>, env: Env, disk: Disk)
    requires k <= |inputs| && QuietBefore(interrupt, k)
    ensures Loop(inputs[..k], copyType, interrupt, cameras, env, disk).halt == Going
  {
    hide Handle, Loop;
    if k == 0 {
      LoopStart(inputs, copyType, interrupt, cameras, env, disk);
    } else {
      LoopQuiet(inputs, k - 1, copyType, interrupt, cameras, env, disk);
      LoopNext(inputs, k - 1, copyType, interrupt, cameras, env, disk);
      var q := Loop(inputs[..k - 1], copyType, interrupt, cameras, env, disk);
      HandleHalt(k - 1, inputs[k - 1], copyType, interrupt, q.state, cameras, env);
    }
  }

  /** Without cancellation or a faulty observer the pass handles every record. */
  lemma LoopUninterrupted(inputs: seq<Input>, copyType: CopyType, cameras: seq<CameraSetting>, env: Env, disk: Disk)
    ensures var p := Loop(inputs, copyType, Uninterrupted, cameras, env, disk);
      p.halt == Going && p.reached == |inputs|
  {
    hide Handle, Loop;
    LoopQuiet(inputs, |inputs|, copyType, Uninterrupted, cameras, env, disk);
    assert inputs[..|inputs|] == inputs;
  }

  /** The token signalled before record `c`'s top-of-loop check: the pass stops there with
      the cancellation exception, and no record from `c` on is touched. */
  lemma LoopCanceledAtTop(inputs: seq<Input>, c: nat, copyType: CopyType, cameras: seq<CameraSetting>, env: Env, disk: Disk)
    requires c < |inputs|
    ensures var p := Loop(inputs, copyType, Cancel(c, false), cameras, env, disk);
      && p.halt == HaltCanceled(CanceledMessage) && p.reached == c
      && forall k | c <= k < |inputs| :: p.snapshots[k] == inputs[k].snapshot
  {
    hide Handle, Loop;
    LoopQuiet(inputs, c, copyType, Cancel(c, false), cameras, env, disk);
    LoopNext(inputs, c, copyType, Cancel(c, false), cameras, env, disk);
    LoopPrefix(inputs, c + 1, copyType, Cancel(c, false), cameras, env, disk);
    forall k | c <= k < |inputs|
      ensures Loop(inputs, copyType, Cancel(c, false), cameras, env, disk).snapshots[k] == inputs[k].snapshot
    {
      LoopRecord(inputs, k, copyType, Cancel(c, false), cameras, env, disk);
    }
  }

  /** The token signalled while record `c`'s operation is pending: record `c` is the last
      one handled, and the pass stops with a cancellation, either from the pending operation
      or from the next top-of-loop check. */
  lemma LoopCanceledInFlight(inputs: seq<Input>, c: nat, copyType: CopyType, cameras: seq<CameraSetting>, env: Env, disk: Disk)
    requires c + 1 < |inputs|
    ensures var p := Loop(inputs, copyType, Cancel(c, true), cameras, env, disk);
      && (p.halt == HaltCanceled(TaskCanceledMessage) || p.halt == HaltCanceled(CanceledMessage))
      && p.reached == c + 1
  {
    hide Handle, Loop;
    var interrupt := Cancel(c, true);
    LoopQuiet(inputs, c, copyType, interrupt, cameras, env, disk);
    LoopNext(inputs, c, copyType, interrupt, cameras, env, disk);
    var q := Loop(inputs[..c], copyType, interrupt, cameras, env, disk);
    HandleHalt(c, inputs[c], copyType, interrupt, q.state, cameras, env);
    var m := Loop(inputs[..c + 1], copyType, interrupt, cameras, env, disk);
    if m.halt.Going? {
      LoopNext(inputs, c + 1, copyType, interrupt, cameras, env, disk);
      LoopPrefix(inputs, c + 2, copyType, interrupt, cameras, env, disk);
    } else {
      LoopPrefix(inputs, c + 1, copyType, interrupt, cameras, env, disk);
    }
  }

  /** The token signalled while the last record's operation is pending: every record is
      reached, and the pass either ends normally (no later top-of-loop check remains) or
      with the pending operation's cancellation. */
  lemma LoopCanceledInLast(inputs: seq<Input>, copyType: CopyType, cameras: seq<CameraSetting>, env: Env, disk: Disk)
    requires inputs != []
    ensures var p := Loop(inputs, copyType, Cancel(|inputs| - 1, true), cameras, env, disk);
      && (p.halt == Going || p.halt == HaltCanceled(TaskCanceledMessage))
      && p.reached == |inputs|
  {
    hide Handle, Loop;
    var c := |inputs| - 1;
    var interrupt := Cancel(c, true);
    LoopQuiet(inputs, c, copyType, interrupt, cameras, env, disk);
    LoopNext(inputs, c, copyType, interrupt, cameras, env, disk);
    var q := Loop(inputs[..c], copyType, interrupt, cameras, env, disk);
    HandleHalt(c, inputs[c], copyType, interrupt, q.state, cameras, env);
    assert inputs[..c + 1] == inputs;
  }

  /** A progress observer that throws on the event after record `c` stops the pass there,
      with its exception. */
  lemma LoopObserverFault(inputs: seq<Input>, c: nat, message: string, copyType: CopyType,
                          cameras: seq<CameraSetting>, env: Env, disk: Disk)
    requires c < |inputs|
    ensures var p := Loop(inputs, copyType, ObserverFault(c, message), cameras, env, disk);
      p.halt == HaltFailed(message) && p.reached == c + 1
  {
    hide Handle, Loop;
    var interrupt := ObserverFault(c, message);
    LoopQuiet(inputs, c, copyType, interrupt, cameras, env, disk);
    LoopNext(inputs, c, copyType, interrupt, cameras, env, disk);
    var q := Loop(inputs[..c], copyType, interrupt, cameras, env, disk);
    HandleHalt(c, inputs[c], copyType, interrupt, q.state, cameras, env);
    LoopPrefix(inputs, c + 1, copyType, interrupt, cameras, env, disk);
  }

  /** A demonstration run leaves the file system as it was and ejects nothing. */
  lemma {:induction false} LoopDemonstration(inputs: seq<Input>, interrupt: Interrupt, cameras: seq<CameraSetting>,
                                             env: Env, disk: Disk)
    ensures var p := Loop(inputs, CopyType.Demonstration, interrupt, cameras, env, disk);
      p.state.disk == disk && p.state.eject == {}
    decreases |inputs|
  {
    hide Handle;
    if inputs != [] {
      var k := |inputs| - 1;
      LoopDemonstration(inputs[..k], interrupt, cameras, env, disk);
      var q := Loop(inputs[..k], CopyType.Demonstration, interrupt, cameras, env, disk);
      HandleDemonstration(k, inputs[k], interrupt, q.state, cameras, env);
    }
  }

  /** Only removable drives are collected for ejection. */
  lemma {:induction false} LoopEjects(inputs: seq<Input>, copyType: CopyType, interrupt: Interrupt,
                                      cameras: seq<CameraSetting>, env: Env, disk: Disk)
    ensures Loop(inputs, copyType, interrupt, cameras, env, disk).state.eject <= env.removableDrives
    decreases |inputs|
  {
    hide Handle;
    if inputs != [] {
      var k := |inputs| - 1;
      LoopEjects(inputs[..k], copyType, interrupt, cameras, env, disk);
      var q := Loop(inputs[..k], copyType, interrupt, cameras, env, disk);
      HandleEjects(k, inputs[k], copyType, interrupt, q.state, cameras, env);
    }
  }

  /** An unselected record keeps its fields, except that one reached by the pass and not
      already Success is marked Skipped. */
  lemma LoopUnselected(inputs: seq<Input>, k: nat, copyType: CopyType, interrupt: Interrupt,
                       cameras: seq<CameraSetting>, env: Env, disk: Disk)
    requires k < |inputs| && !inputs[k].snapshot.selected
    ensures var p := Loop(inputs, copyType, interrupt, cameras, env, disk);
      p.snapshots[k] == (if k < p.reached && inputs[k].snapshot.status != StatusType.Success
                         then Snapshot(false, StatusType.Skipped, Null) else inputs[k].snapshot)
  {
    hide Handle, Loop;
    LoopRecord(inputs, k, copyType, interrupt, cameras, env, disk);
    var q := Loop(inputs[..k], copyType, interrupt, cameras, env, disk);
    HandleUnselected(k, inputs[k], copyType, interrupt, q.state, cameras, env);
  }
}
