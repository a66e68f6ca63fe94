/**
 The journalled stop-before-start switch of the consumer-only deployer: `apply` stops the old
 Consumer, starts the new one and rolls back on failure; `rollback` undoes a switch by hand.
 Every kubectl call and journal write may fail before or after its effect, and the process may
 die at any of them; controllers move Pods in between.
 */
module ConsumerSwitch {
  import opened Wrappers
  import opened Cluster

  datatype Code =
    | Kubectl | Drain | Identity | Ownership | JournalGuard | Drift | Unhealthy
    | Quiesce | OldMissing | Preflight | Local

  // Raised is a Python exception, Crashed the death of the process: no handler runs.
  datatype Outcome = Done | Raised(code: Code) | Crashed

  datatype Target = Target(context: string, namespace: string, name: string)

  datatype RawSettings = Settings(target: Target, oldDeployment: Option<string>)

  // An old Deployment, when there is one, is never the target itself.
  type Settings = s: RawSettings | s.oldDeployment != Some(s.target.name) witness Settings(Target("", "", ""), None)

  datatype Snapshot = Snapshot(name: string, uid: nat, owned: bool, spec: Spec)

  datatype Phase = Prepared | OldStopped | NewStarted | Complete | RollbackStoppedNew | RolledBack

  datatype Journal = Journal(
    target: Target,
    phase: Phase,
    snapshots: seq<Snapshot>,
    fingerprint: int,
    newUid: Option<nat>,
    appliedSpec: Option<Spec>)

  // A rendered Deployment: one replica of `template`; the fingerprint covers everything rendered.
  datatype Release = Release(template: int, fingerprint: int) {
    function Rendered(): Spec {
      Spec(Some(1), template)
    }
  }

  datatype Command = Apply(release: Release, paused: bool) | Rollback(paused: bool)

  // What the deployer got done, in order.
  datatype Event =
    | Checked | Stopped(name: string) | Started(name: string) | Ready(name: string)
    | Removed(name: string) | Wrote(phase: Phase)

  // The latest event is outermost.
  datatype Log = Nothing | After(past: Log, event: Event)

  // ---------------------------------------------------------------- values

  function SnapshotOf(name: string, d: Deployment): Snapshot {
    Snapshot(name, d.uid, d.owned, d.spec)
  }

  function SnapshotIfAny(name: string, ds: map<string, Deployment>): seq<Snapshot> {
    if name in ds then [SnapshotOf(name, ds[name])] else []
  }

  // The old Consumer first, then the target.
  function Snapshots(s: Settings, ds: map<string, Deployment>): seq<Snapshot> {
    (if s.oldDeployment.Some? then SnapshotIfAny(s.oldDeployment.value, ds) else []) + SnapshotIfAny(s.target.name, ds)
  }

  predicate Names(snapshots: seq<Snapshot>, name: string) {
    exists i :: 0 <= i < |snapshots| && snapshots[i].name == name
  }

  predicate Identified(ds: map<string, Deployment>, name: string, uid: nat, managed: bool) {
    name in ds && ds[name].uid == uid && (managed ==> ds[name].owned)
  }

  // The checks that open a restore, as one condition on the cluster and the journal.
  predicate RestoreAccepts(s: Settings, j: Journal, ds: map<string, Deployment>) {
    && (forall i :: 0 <= i < |j.snapshots| ==>
          Identified(ds, j.snapshots[i].name, j.snapshots[i].uid, j.snapshots[i].name == s.target.name))
    && (if j.newUid.Some? then Identified(ds, s.target.name, j.newUid.value, true)
        else Names(j.snapshots, s.target.name) || s.target.name !in ds)
  }

  predicate Unfinished(p: Phase) {
    p != Complete && p != RolledBack
  }

  // Never both Consumers: stronger than "never both have Pods".
  predicate Exclusive(s: Settings, c: Cluster) {
    s.oldDeployment.Some? ==> !(MayRun(c, s.oldDeployment.value) && MayRun(c, s.target.name))
  }

  predicate NoOrphans(s: Settings, c: Cluster) {
    && (s.target.name !in c.deployments ==> PodsOf(c, s.target.name) == 0)
    && (s.oldDeployment.Some? && s.oldDeployment.value !in c.deployments ==> PodsOf(c, s.oldDeployment.value) == 0)
  }

  // What a journal names is, as far as it is there, the very object it names.
  predicate Recognised(s: Settings, j: Journal, ds: map<string, Deployment>) {
    && (forall i :: 0 <= i < |j.snapshots| ==>
          Identified(ds, j.snapshots[i].name, j.snapshots[i].uid, j.snapshots[i].name == s.target.name))
    && (j.newUid.Some? && s.target.name in ds ==> Identified(ds, s.target.name, j.newUid.value, true))
  }

  // The same objects, whatever their specs.
  predicate SameObjects(ds: map<string, Deployment>, ds': map<string, Deployment>) {
    ds'.Keys == ds.Keys && forall n :: n in ds ==> ds'[n].uid == ds[n].uid && ds'[n].owned == ds[n].owned
  }

  // `before` is the cluster a journal was taken from.
  predicate JournalOk(s: Settings, j: Journal, before: map<string, Deployment>, c: Cluster) {
    && j.target == s.target
    && j.snapshots == Snapshots(s, before)
    && Recognised(s, j, c.deployments)
    && (s.target.name in before ==> before[s.target.name].owned)
    && (s.oldDeployment.Some? ==>
          && s.oldDeployment.value in before
          && (s.target.name in before && Desired(before[s.target.name].spec) > 0 ==>
                Desired(before[s.oldDeployment.value].spec) == 0 && !MayRun(c, s.oldDeployment.value)))
  }

  // The two Consumers are as they were in `before`: same identity, labels and spec, or absent.
  predicate RestoredTo(s: Settings, before: map<string, Deployment>, ds: map<string, Deployment>) {
    && (s.oldDeployment.Some? && s.oldDeployment.value in before ==>
          s.oldDeployment.value in ds && ds[s.oldDeployment.value] == before[s.oldDeployment.value])
    && (if s.target.name in before then s.target.name in ds && ds[s.target.name] == before[s.target.name] else s.target.name !in ds)
  }

  // A journal stays true while its target and snapshots stay, the objects stay, what it adds is
  // true, and the old Consumer stays at rest.
  lemma JournalKept(s: Settings, j: Journal, j': Journal, before: map<string, Deployment>, c: Cluster, c': Cluster)
    requires JournalOk(s, j, before, c) && SameObjects(c.deployments, c'.deployments)
    requires j'.target == j.target && j'.snapshots == j.snapshots
    requires j'.newUid == j.newUid || (j'.newUid.Some? && Identified(c'.deployments, s.target.name, j'.newUid.value, true))
    requires s.oldDeployment.Some? && !MayRun(c, s.oldDeployment.value) ==> !MayRun(c', s.oldDeployment.value)
    ensures JournalOk(s, j', before, c')
  {
  }

  // Applying the target, or failing to, leaves a journal true that says nothing of it yet.
  lemma JournalApplied(s: Settings, j: Journal, before: map<string, Deployment>, c: Cluster, c': Cluster, spec: Spec)
    requires JournalOk(s, j, before, c) && j.newUid.None?
    requires c'.deployments in {c.deployments, Applied(c, s.target.name, true, spec).deployments}
    requires s.oldDeployment.Some? && !MayRun(c, s.oldDeployment.value) ==> !MayRun(c', s.oldDeployment.value)
    ensures JournalOk(s, j, before, c')
  {
    SnapshotFacts(s, before);
  }

  lemma SameAfterScale(s: Settings, c: Cluster, c': Cluster)
    requires c'.deployments in {c.deployments, Scaled(c, s.target.name, 0).deployments}
    ensures SameObjects(c.deployments, c'.deployments)
  {
  }

  // A target whose identity is journalled is recognised as long as it is there.
  lemma KnownAccepted(s: Settings, j: Journal, before: map<string, Deployment>, c: Cluster)
    requires JournalOk(s, j, before, c) && j.newUid.Some? && s.target.name in c.deployments
    ensures RestoreAccepts(s, j, c.deployments)
  {
  }

  predicate OthersKept(s: Settings, ds: map<string, Deployment>, ds': map<string, Deployment>) {
    forall n :: n in ds.Keys + ds'.Keys && n != s.target.name && s.oldDeployment != Some(n) ==>
      n in ds && n in ds' && ds[n] == ds'[n]
  }

  // The Consumer that must not run while `name` starts.
  function Rival(s: Settings, name: string): Option<string> {
    if name == s.target.name then s.oldDeployment else if s.oldDeployment == Some(name) then Some(s.target.name) else None
  }

  predicate Free(s: Settings, c: Cluster, name: string) {
    var rival := Rival(s, name);
    rival.Some? ==> !MayRun(c, rival.value)
  }

  lemma SnapshotFacts(s: Settings, ds: map<string, Deployment>)
    ensures forall i :: 0 <= i < |Snapshots(s, ds)| ==>
      var x := Snapshots(s, ds)[i];
      x.name in ds && x == SnapshotOf(x.name, ds[x.name]) && (x.name == s.target.name || s.oldDeployment == Some(x.name))
    ensures forall i, j :: 0 <= i < j < |Snapshots(s, ds)| ==> Snapshots(s, ds)[i].name != Snapshots(s, ds)[j].name
    ensures Names(Snapshots(s, ds), s.target.name) <==> s.target.name in ds
    ensures s.oldDeployment.Some? ==> (Names(Snapshots(s, ds), s.oldDeployment.value) <==> s.oldDeployment.value in ds)
  {
    var xs := Snapshots(s, ds);
    if s.target.name in ds {
      assert xs[|xs| - 1].name == s.target.name;
    }
    if s.oldDeployment.Some? && s.oldDeployment.value in ds {
      assert xs[0].name == s.oldDeployment.value;
    }
  }

  // A restore that has re-applied the first `done` snapshots and may go on.
  predicate Restoring(s: Settings, j: Journal, before: map<string, Deployment>, c: Cluster, done: nat) {
    && JournalOk(s, j, before, c)
    && (s.target.name !in before ==> !MayRun(c, s.target.name))
    && (forall k :: 0 <= k < |j.snapshots| ==>
          var x := j.snapshots[k];
          && x.name in before && x == SnapshotOf(x.name, before[x.name])
          && x.name in c.deployments && c.deployments[x.name].uid == x.uid
          && (k < done ==> c.deployments[x.name] == before[x.name])
          && (k >= done && Desired(x.spec) > 0 ==> Free(s, c, x.name)))
  }

  lemma RestoreStarts(s: Settings, j: Journal, before: map<string, Deployment>, c: Cluster)
    requires JournalOk(s, j, before, c) && RestoreAccepts(s, j, c.deployments) && !MayRun(c, s.target.name)
    ensures Restoring(s, j, before, c, 0)
  {
    SnapshotFacts(s, before);
  }

  // Whatever has been re-applied since the Deployments were `base`.
  predicate PartlyBack(s: Settings, j: Journal, before: map<string, Deployment>, base: map<string, Deployment>, c: Cluster) {
    && JournalOk(s, j, before, c)
    && OthersKept(s, base, c.deployments)
    && (s.target.name !in before ==>
          !MayRun(c, s.target.name) && (s.target.name in c.deployments <==> s.target.name in base))
  }

  // One snapshot re-applied, or the call failed somewhere around its effect.
  lemma RestoreStep(s: Settings, j: Journal, before: map<string, Deployment>, base: map<string, Deployment>,
                    c: Cluster, c': Cluster, done: nat)
    requires Restoring(s, j, before, c, done) && done < |j.snapshots|
    requires PartlyBack(s, j, before, base, c)
    requires
      var x := j.snapshots[done];
      && QuietBut(c, c', if Desired(x.spec) > 0 then Some(x.name) else None)
      && c'.deployments in {c.deployments, Applied(c, x.name, x.owned, x.spec).deployments}
    ensures PartlyBack(s, j, before, base, c')
    ensures c'.deployments == Applied(c, j.snapshots[done].name, j.snapshots[done].owned, j.snapshots[done].spec).deployments
      ==> Restoring(s, j, before, c', done + 1)
  {
    SnapshotFacts(s, before);
  }

  // Stopping the target does not change what a restore recognises.
  lemma StillAccepted(s: Settings, j: Journal, ds: map<string, Deployment>, ds': map<string, Deployment>)
    requires RestoreAccepts(s, j, ds) && SameObjects(ds, ds')
    ensures RestoreAccepts(s, j, ds')
  {
  }

  lemma RestoringMeans(s: Settings, j: Journal, before: map<string, Deployment>, c: Cluster, done: nat)
    requires Restoring(s, j, before, c, done)
    ensures PartlyBack(s, j, before, c.deployments, c)
  {
  }

  lemma RestoringKept(s: Settings, j: Journal, j': Journal, before: map<string, Deployment>,
                      c: Cluster, c': Cluster, done: nat)
    requires Restoring(s, j, before, c, done) && Drifts(c, c')
    requires j'.target == j.target && j'.snapshots == j.snapshots && j'.newUid == j.newUid
    ensures Restoring(s, j', before, c', done)
  {
  }

  // All snapshots re-applied, and no target that was not there.
  lemma BackInPlace(s: Settings, j: Journal, before: map<string, Deployment>, c: Cluster, ds: map<string, Deployment>)
    requires Restoring(s, j, before, c, |j.snapshots|)
    requires ds == if Names(j.snapshots, s.target.name) then c.deployments else c.deployments - {s.target.name}
    ensures RestoredTo(s, before, ds) && OthersKept(s, c.deployments, ds)
  {
    SnapshotFacts(s, before);
  }

  predicate StoppedOr(d: Deployment, d': Deployment) {
    d' == d || d' == d.(spec := d.spec.(replicas := Some(0)))
  }

  // A switch that has stopped the first `done` recorded Deployments.
  predicate Stopping(s: Settings, j: Journal, before: map<string, Deployment>, c: Cluster, done: nat) {
    && JournalOk(s, j, before, c)
    && c.deployments.Keys == before.Keys
    && OthersKept(s, before, c.deployments)
    && (forall n :: n in before ==> StoppedOr(before[n], c.deployments[n]))
    && (forall k :: 0 <= k < |j.snapshots| && k < done ==> !MayRun(c, j.snapshots[k].name))
  }

  lemma StopStep(s: Settings, j: Journal, before: map<string, Deployment>, c: Cluster, c': Cluster, done: nat)
    requires Stopping(s, j, before, c, done) && done < |j.snapshots|
    requires QuietBut(c, c', None)
    requires c'.deployments in {c.deployments, Scaled(c, j.snapshots[done].name, 0).deployments}
    ensures Stopping(s, j, before, c', done)
    ensures !MayRun(c', j.snapshots[done].name) ==> Stopping(s, j, before, c', done + 1)
  {
    SnapshotFacts(s, before);
  }

  // The journal is the completed switch to this very release.
  predicate SameRelease(s: Settings, j: Option<Journal>, release: Release) {
    j.Some? && j.value.target == s.target && j.value.phase == Complete && j.value.fingerprint == release.fingerprint
  }

  // The journal on disk forbids a new switch.
  predicate JournalBlocks(s: Settings, j: Option<Journal>) {
    j.Some? && (j.value.target != s.target || Unfinished(j.value.phase))
  }

  // An unfinished switch that a restore no longer recognises: no rollback, and no apply either.
  predicate Stuck(s: Settings, j: Option<Journal>, ds: map<string, Deployment>) {
    j.Some? && j.value.target == s.target && Unfinished(j.value.phase) && !RestoreAccepts(s, j.value, ds)
  }

  // The journal knows the new Deployment, which is gone.
  predicate Vanished(s: Settings, j: Journal, ds: map<string, Deployment>) {
    j.newUid.Some? && s.target.name !in ds
  }

  // The new Deployment is there, and the journal knows nothing of it.
  predicate Unrecorded(s: Settings, j: Journal, ds: map<string, Deployment>) {
    j.newUid.None? && s.target.name in ds && !Names(j.snapshots, s.target.name)
  }

  // Of the states that can be reached, exactly those two are stuck.
  lemma StuckExactly(s: Settings, j: Journal, before: map<string, Deployment>, c: Cluster)
    requires JournalOk(s, j, before, c) && Unfinished(j.phase)
    ensures Stuck(s, Some(j), c.deployments) <==> Vanished(s, j, c.deployments) || Unrecorded(s, j, c.deployments)
  {
    if j.newUid.Some? && s.target.name in c.deployments {
      assert Identified(c.deployments, s.target.name, j.newUid.value, true);
    }
  }

  // A restore that dies, or whose delete or journal write raises, between deleting the new
  // Deployment and saying so is stuck for good.
  lemma DeletionStrands(s: Settings, j: Journal, before: map<string, Deployment>, c: Cluster)
    requires Restoring(s, j, before, c, |j.snapshots|) && Unfinished(j.phase)
    requires j.newUid.Some? && s.target.name !in before
    ensures Vanished(s, j, Deleted(c, s.target.name).deployments)
    ensures Stuck(s, Some(j), Deleted(c, s.target.name).deployments)
  {
  }

  // A switch that dies, or whose apply, read or journal write raises, between applying a new
  // Deployment and journalling its identity is stuck for good, perhaps with that Deployment running.
  lemma ApplyStrands(s: Settings, j: Journal, before: map<string, Deployment>, c: Cluster, release: Release)
    requires Stopping(s, j, before, c, |j.snapshots|) && Unfinished(j.phase)
    requires j.newUid.None? && s.target.name !in before
    ensures
      var c' := Applied(c, s.target.name, true, release.Rendered());
      Unrecorded(s, j, c'.deployments) && Stuck(s, Some(j), c'.deployments) && Wants(c', s.target.name)
  {
    SnapshotFacts(s, before);
  }

  // Both at a first deployment of "t": the states just before are ones its switch goes through.
  lemma FirstDeploymentStrands(release: Release)
    ensures
      var s := Settings(Target("c", "n", "t"), None);
      var stopped := Journal(s.target, OldStopped, [], release.fingerprint, None, None);
      var empty := Cluster(map[], map[], 0);
      && Stopping(s, stopped, map[], empty, 0)
      && Stuck(s, Some(stopped), Applied(empty, "t", true, release.Rendered()).deployments)
    ensures
      var s := Settings(Target("c", "n", "t"), None);
      var undone := Journal(s.target, RollbackStoppedNew, [], release.fingerprint, Some(0), None);
      var atRest := Cluster(map["t" := Deployment(0, true, Spec(Some(0), release.template))], map[], 1);
      && Restoring(s, undone, map[], atRest, 0)
      && Stuck(s, Some(undone), Deleted(atRest, "t").deployments)
  {
    var s := Settings(Target("c", "n", "t"), None);
    var stopped := Journal(s.target, OldStopped, [], release.fingerprint, None, None);
    var undone := Journal(s.target, RollbackStoppedNew, [], release.fingerprint, Some(0), None);
    ApplyStrands(s, stopped, map[], Cluster(map[], map[], 0), release);
    DeletionStrands(s, undone, map[], Cluster(map["t" := Deployment(0, true, Spec(Some(0), release.template))], map[], 1));
  }

  // With everything stopped and nothing started, a restore recognises what is there.
  lemma StoppedAccepted(s: Settings, j: Journal, j': Journal, before: map<string, Deployment>, c: Cluster)
    requires Stopping(s, j, before, c, |j.snapshots|) && j'.snapshots == j.snapshots && j'.newUid.None?
    ensures RestoreAccepts(s, j', c.deployments)
  {
    SnapshotFacts(s, before);
  }

  lemma StoppingMeans(s: Settings, j: Journal, before: map<string, Deployment>, c: Cluster, done: nat)
    requires Stopping(s, j, before, c, done) && NoOrphans(s, c)
    ensures JournalOk(s, j, before, c) && OthersKept(s, before, c.deployments)
    ensures forall owned, spec :: OthersKept(s, before, Applied(c, s.target.name, owned, spec).deployments)
    ensures done >= |j.snapshots| ==> !MayRun(c, s.target.name) && Free(s, c, s.target.name)
  {
    SnapshotFacts(s, before);
  }

  // From everything stopped at `c` to the new Consumer started at `c'`.
  lemma SwitchDone(s: Settings, release: Release, prepared: Journal, before: map<string, Deployment>,
                   c: Cluster, c': Cluster, j: Journal)
    requires Stopping(s, prepared, before, c, |prepared.snapshots|)
    requires c'.deployments == Applied(c, s.target.name, true, release.Rendered()).deployments
    requires Free(s, c', s.target.name)
    requires prepared == Journal(s.target, Prepared, Snapshots(s, before), release.fingerprint, None, None)
    requires j == prepared.(newUid := Some(c'.deployments[s.target.name].uid), appliedSpec := Some(release.Rendered()), phase := Complete)
    ensures Switched(s, release, before, c', Some(j))
  {
  }

  // The journal can undo a switch that began at `base`; if it says rolled back, that has been done.
  predicate Recoverable(s: Settings, base: map<string, Deployment>, before: map<string, Deployment>,
                        ds: map<string, Deployment>, j: Option<Journal>) {
    && before == base
    && j.Some? && j.value.snapshots == Snapshots(s, before)
    && (j.value.phase == RolledBack ==> RestoredTo(s, before, ds))
  }

  lemma FreshJournal(s: Settings, j: Journal, c: Cluster)
    requires Exclusive(s, c) && j.target == s.target && j.snapshots == Snapshots(s, c.deployments) && j.newUid.None?
    requires s.target.name in c.deployments ==> c.deployments[s.target.name].owned
    requires s.oldDeployment.Some? ==> s.oldDeployment.value in c.deployments
    ensures JournalOk(s, j, c.deployments, c)
  {
    SnapshotFacts(s, c.deployments);
  }

  // A new switch may begin: no unfinished or foreign journal, the target is ours, the old one exists.
  predicate DeployAccepts(s: Settings, j: Option<Journal>, ds: map<string, Deployment>) {
    && !JournalBlocks(s, j)
    && (s.target.name in ds ==> ds[s.target.name].owned)
    && (s.oldDeployment.Some? ==> s.oldDeployment.value in ds)
  }

  // The switch from `before` to `release` is complete and journalled.
  ghost predicate Switched(s: Settings, release: Release, before: map<string, Deployment>, c: Cluster, j: Option<Journal>) {
    var name := s.target.name;
    && name in c.deployments
    && c.deployments[name].owned && c.deployments[name].spec == release.Rendered()
    && Desired(c.deployments[name].spec) == 1 && c.deployments[name].spec.template == release.template
    && (name in before ==> c.deployments[name].uid == before[name].uid)
    && (s.oldDeployment.Some? ==>
          && s.oldDeployment.value in before && s.oldDeployment.value in c.deployments
          && c.deployments[s.oldDeployment.value].uid == before[s.oldDeployment.value].uid
          && !MayRun(c, s.oldDeployment.value))
    && j == Some(Journal(s.target, Complete, Snapshots(s, before), release.fingerprint,
                         Some(c.deployments[name].uid), Some(release.Rendered())))
  }

  function StopIfAny(log: Log, name: string, ds: map<string, Deployment>): Log {
    if name in ds then After(log, Stopped(name)) else log
  }

  function StopFirst(log: Log, xs: seq<Snapshot>, n: nat): Log
    requires n <= |xs|
  {
    if n == 0 then log else After(StopFirst(log, xs, n - 1), Stopped(xs[n - 1].name))
  }

  function PutOneBack(log: Log, x: Snapshot): Log {
    var started := After(log, Started(x.name));
    if Desired(x.spec) > 0 then After(started, Ready(x.name)) else started
  }

  function PutFirstBack(log: Log, xs: seq<Snapshot>, n: nat): Log
    requires n <= |xs|
  {
    if n == 0 then log
    else
      PutOneBack(PutFirstBack(log, xs, n - 1), xs[n - 1])
  }

  // The promised order of a switch: look, stop what runs, look again, only then start and wait.
  function SwitchLog(log: Log, s: Settings, before: map<string, Deployment>): Log {
    GuardedLog(After(After(log, Checked), Wrote(Prepared)), s, Snapshots(s, before))
  }

  function GuardedLog(log: Log, s: Settings, xs: seq<Snapshot>): Log {
    StartLog(After(StopFirst(log, xs, |xs|), Wrote(OldStopped)), s)
  }

  function StartLog(log: Log, s: Settings): Log {
    var started := After(After(After(log, Checked), Started(s.target.name)), Wrote(NewStarted));
    After(After(started, Ready(s.target.name)), Wrote(Complete))
  }

  // The promised order of a restore: stop the replacement, look, only then put the old ones back.
  function RestoreLog(log: Log, s: Settings, j: Journal, ds: map<string, Deployment>): Log {
    var stopped := StopIfAny(log, s.target.name, ds);
    After(PutBackLog(After(After(stopped, Wrote(RollbackStoppedNew)), Checked), s, j), Wrote(RolledBack))
  }

  function PutBackLog(log: Log, s: Settings, j: Journal): Log {
    var back := PutFirstBack(log, j.snapshots, |j.snapshots|);
    if Names(j.snapshots, s.target.name) then back else After(back, Removed(s.target.name))
  }

  class Deployer {
    const settings: Settings
    // No call fails, every check and rollout passes, and stopped Pods leave at once.
    const reliable: bool
    // The new Consumer passes the check before its start and becomes ready.
    const smooth: bool

    var cluster: Cluster
    var journal: Option<Journal>               // state.json

    ghost var bothAllowed: bool                // some state so far let both Consumers run
    ghost var before: map<string, Deployment>  // the Deployments when the journal was taken
    ghost var idle: bool                       // an idle check has passed since the last stop
    ghost var startedUnchecked: bool           // some Consumer was started without `idle`
    ghost var log: Log                         // what got done so far

    // No state so far allowed both Consumers, and each start followed an idle check.
    ghost predicate Safe()
      reads this
    {
      && !bothAllowed && Exclusive(settings, cluster)
      && !startedUnchecked
      && NoOrphans(settings, cluster)
    }

    ghost predicate Inv()
      reads this
    {
      && Safe()
      && (journal.Some? && journal.value.target == settings.target ==>
            JournalOk(settings, journal.value, before, cluster))
    }

    constructor (settings: Settings, reliable: bool, smooth: bool, cluster: Cluster)
      requires Exclusive(settings, cluster) && NoOrphans(settings, cluster)
      ensures Inv()
      ensures this.settings == settings && this.reliable == reliable && this.smooth == smooth
      ensures this.cluster == cluster && journal == None && !bothAllowed && !startedUnchecked && log == Nothing
    {
      this.settings, this.reliable, this.smooth, this.cluster, this.journal := settings, reliable, smooth, cluster, None;
      this.bothAllowed, this.startedUnchecked, this.before, this.idle, this.log := false, false, map[], false, Nothing;
    }

    // ------------------------------------------------------------ kubectl

    // Controllers act between two calls.
    method Settle()
      modifies `cluster, `bothAllowed
      ensures Drifts(old(cluster), cluster)
      ensures old(Safe()) ==> Safe()
      ensures reliable ==> forall n :: !Wants(cluster, n) ==> PodsOf(cluster, n) == 0
    {
      var wish: map<string, nat> := *;
      var c := cluster;
      var pods := map n | n in wish && (Wants(c, n) || (!reliable && wish[n] <= PodsOf(c, n))) :: wish[n];
      cluster := c.(pods := pods);
      bothAllowed := bothAllowed || !Exclusive(settings, cluster);
    }

    // How one call goes: it may raise, or the process may die, before or after its effect.
    method Weather(code: Code) returns (effect: bool, o: Outcome)
      ensures o.Done? ==> effect
      ensures o.Raised? ==> o.code == code
      ensures reliable ==> o.Done?
    {
      effect, o := true, Done;
      if !reliable {
        var kind: nat := *;
        effect := *;
        match kind
        case 0 => o := Raised(code);
        case 1 => o := Crashed;
        case _ => effect := true;
      }
    }

    method Get(name: string) returns (o: Outcome, d: Option<Deployment>)
      modifies `cluster, `bothAllowed
      ensures Drifts(old(cluster), cluster)
      ensures old(Safe()) ==> Safe()
      ensures o.Raised? ==> o.code == Kubectl
      ensures reliable ==> o.Done?
      ensures d == if name in cluster.deployments then Some(cluster.deployments[name]) else None
    {
      Settle();
      var effect;
      effect, o := Weather(Kubectl);
      d := if name in cluster.deployments then Some(cluster.deployments[name]) else None;
    }

    method GetPods(name: string) returns (o: Outcome, pods: nat)
      modifies `cluster, `bothAllowed
      ensures Drifts(old(cluster), cluster)
      ensures old(Safe()) ==> Safe()
      ensures o.Raised? ==> o.code == Kubectl
      ensures reliable ==> o.Done? && (!Wants(cluster, name) ==> pods == 0)
      ensures pods == PodsOf(cluster, name)
    {
      Settle();
      var effect;
      effect, o := Weather(Kubectl);
      pods := PodsOf(cluster, name);
    }

    method Scale(name: string)
      returns (o: Outcome)
      modifies `cluster, `bothAllowed, `idle, `log
      ensures (o.Done? ==> log == After(old(log), Stopped(name)))
      ensures old(Safe()) ==> Safe()
      ensures o.Raised? ==> o.code == Kubectl
      ensures reliable ==> o.Done?
      ensures QuietBut(old(cluster), cluster, None)
      ensures cluster.deployments in {old(cluster).deployments, Scaled(old(cluster), name, 0).deployments}
      ensures o.Done? ==> cluster.deployments == Scaled(old(cluster), name, 0).deployments && !idle
    {
      Settle();
      var effect;
      effect, o := Weather(Kubectl);
      if effect {
        cluster := Scaled(cluster, name, 0);
        bothAllowed := bothAllowed || !Exclusive(settings, cluster);
        idle := false;
        log := After(log, Stopped(name));
      }
    }

    method ApplyDocument(name: string, owned: bool, spec: Spec) returns (o: Outcome)
      modifies `cluster, `bothAllowed, `startedUnchecked, `log
      ensures (o.Done? ==> log == After(old(log), Started(name)))
      ensures old(Safe()) && (Desired(spec) > 0 ==> old(idle) && Free(settings, old(cluster), name)) ==> Safe()
      ensures o.Raised? ==> o.code == Kubectl
      ensures reliable ==> o.Done?
      ensures QuietBut(old(cluster), cluster, if Desired(spec) > 0 then Some(name) else None)
      ensures cluster.deployments in {old(cluster).deployments, Applied(old(cluster), name, owned, spec).deployments}
      ensures o.Done? ==> cluster.deployments == Applied(old(cluster), name, owned, spec).deployments
    {
      Settle();
      var effect;
      effect, o := Weather(Kubectl);
      if effect {
        cluster := Applied(cluster, name, owned, spec);
        log := After(log, Started(name));
        bothAllowed := bothAllowed || !Exclusive(settings, cluster);
        if Desired(spec) > 0 {
          startedUnchecked := startedUnchecked || !idle;
        }
      }
    }

    method Delete(name: string) returns (o: Outcome)
      modifies `cluster, `bothAllowed, `log
      ensures (o.Done? ==> log == After(old(log), Removed(name)))
      ensures old(Safe()) && !MayRun(old(cluster), name) ==> Safe()
      ensures o.Raised? ==> o.code == Kubectl
      ensures reliable ==> o.Done?
      ensures QuietBut(old(cluster), cluster, None)
      ensures cluster.deployments in {old(cluster).deployments, Deleted(old(cluster), name).deployments}
      ensures o.Done? ==> cluster.deployments == Deleted(old(cluster), name).deployments
    {
      Settle();
      var effect;
      effect, o := Weather(Kubectl);
      if effect {
        cluster := Deleted(cluster, name);
        log := After(log, Removed(name));
        bothAllowed := bothAllowed || !Exclusive(settings, cluster);
      }
    }

    // Calls that only look: `rollout status`, `logs`, diagnostics.
    method Observe() returns (o: Outcome)
      modifies `cluster, `bothAllowed
      ensures Drifts(old(cluster), cluster)
      ensures old(Safe()) ==> Safe()
      ensures o.Raised? ==> o.code == Kubectl
      ensures reliable ==> o.Done?
    {
      Settle();
      var effect;
      effect, o := Weather(Kubectl);
    }

    method Rollout(name: string) returns (o: Outcome)
      modifies `cluster, `bothAllowed, `log
      ensures Drifts(old(cluster), cluster) && (o.Done? ==> log == After(old(log), Ready(name)))
      ensures old(Safe()) ==> Safe()
      ensures o.Raised? ==> o.code == Kubectl
      ensures reliable ==> o.Done?
    {
      o := Observe();
      if o.Done? {
        log := After(log, Ready(name));
      }
    }

    // The doctor Pod: it touches no Deployment; while the probe requires an idle system, it passes
    // only when no job is active.
    method Check() returns (o: Outcome)
      modifies `cluster, `bothAllowed, `idle, `log
      ensures (o.Done? ==> log == After(old(log), Checked)) && Drifts(old(cluster), cluster)
      ensures old(Safe()) ==> Safe()
      ensures o.Raised? ==> o.code in {Kubectl, Preflight}
      ensures reliable ==> o.Done?
      ensures o.Done? ==> idle
    {
      o := Observe();
      if o.Done? && !reliable {
        var passed: bool := *;
        if !passed {
          o := Raised(Preflight);
        }
      }
      if o.Done? {
        idle := true;
        log := After(log, Checked);
      }
    }

    // The wait for the new Consumer, which may not become ready however well the calls work.
    method RolloutNew() returns (o: Outcome)
      modifies `cluster, `bothAllowed, `log
      ensures Drifts(old(cluster), cluster) && (o.Done? ==> log == After(old(log), Ready(settings.target.name)))
      ensures old(Safe()) ==> Safe()
      ensures reliable ==> !o.Crashed? && (smooth ==> o.Done?)
    {
      if !smooth {
        var ready: bool := *;
        if !ready {
          o := Observe();
          o := if o.Crashed? then Crashed else Raised(Kubectl);
          return;
        }
      }
      o := Rollout(settings.target.name);
    }

    // The check before the start, which may find jobs admitted since the first one.
    method CheckAgain() returns (o: Outcome)
      modifies `cluster, `bothAllowed, `idle, `log
      ensures (o.Done? ==> log == After(old(log), Checked)) && Drifts(old(cluster), cluster)
      ensures old(Safe()) ==> Safe()
      ensures reliable ==> !o.Crashed? && (smooth ==> o.Done?)
      ensures o.Done? ==> idle
    {
      if !smooth {
        var busy: bool := *;
        if busy {
          o := Observe();
          o := if o.Crashed? then Crashed else Raised(Preflight);
          return;
        }
      }
      o := Check();
    }

    // Written to a temporary file and renamed, so it lands whole or not at all.
    method WriteJournal(j: Journal) returns (o: Outcome)
      modifies `journal, `log
      ensures o.Done? ==> log == After(old(log), Wrote(j.phase))
      ensures o.Raised? ==> o.code == Local
      ensures reliable ==> o.Done?
      ensures journal in {old(journal), Some(j)}
      ensures o.Done? ==> journal == Some(j)
    {
      var effect;
      effect, o := Weather(Local);
      if effect {
        journal := Some(j);
        log := After(log, Wrote(j.phase));
      }
    }

    method ArchiveJournal() returns (o: Outcome)
      modifies `journal
      ensures o.Raised? ==> o.code == Local
      ensures reliable ==> o.Done?
      ensures journal in {old(journal), None}
      ensures o.Done? ==> journal == None
    {
      var effect;
      effect, o := Weather(Local);
      if effect {
        journal := None;
      }
    }

    // ------------------------------------------------------------ steps

    method AssertIdentity(name: string, uid: Option<nat>, managed: bool) returns (o: Outcome)
      modifies `cluster, `bothAllowed
      ensures Drifts(old(cluster), cluster)
      ensures old(Safe()) ==> Safe()
      ensures o.Raised? ==> o.code in {Kubectl, Identity, Ownership}
      ensures o.Done? ==> uid.Some? && Identified(cluster.deployments, name, uid.value, managed)
      ensures reliable ==> (o.Done? <==> uid.Some? && Identified(cluster.deployments, name, uid.value, managed))
    {
      var d;
      o, d := Get(name);
      if o.Done? {
        if d.None? || Some(d.value.uid) != uid {
          o := Raised(Identity);
        } else if managed && !d.value.owned {
          o := Raised(Ownership);
        }
      }
    }

    // Stops `name` and returns only when nothing of it is left running.
    method ScaleDown(name: string) returns (o: Outcome)
      requires Safe() && (name == settings.target.name || settings.oldDeployment == Some(name))
      modifies `cluster, `bothAllowed, `idle, `log
      ensures Safe()
      ensures o.Raised? ==> o.code in {Kubectl, Drain}
      ensures reliable ==> o.Done?
      ensures QuietBut(old(cluster), cluster, None)
      ensures cluster.deployments in {old(cluster).deployments, Scaled(old(cluster), name, 0).deployments}
      ensures o.Done? ==> log == StopIfAny(old(log), name, old(cluster.deployments))
      ensures o.Done? ==>
        && !MayRun(cluster, name)
        && cluster.deployments == Scaled(old(cluster), name, 0).deployments
    {
      var d;
      o, d := Get(name);
      if !o.Done? || d.None? {
        return;
      }
      o := Scale(name);
      if !o.Done? {
        return;
      }
      // The configured timeout allows at least one look.
      var looks: int := *;
      looks := if looks < 1 then 1 else looks;
      var first := true;
      while looks > 0
        invariant Safe() && QuietBut(old(cluster), cluster, None)
        invariant cluster.deployments == Scaled(old(cluster), name, 0).deployments
        invariant log == After(old(log), Stopped(name)) && name in old(cluster.deployments)
        invariant first || !reliable
        invariant first ==> looks > 0
      {
        o, d := Get(name);
        if !o.Done? {
          return;
        }
        var pods;
        o, pods := GetPods(name);
        if !o.Done? || pods == 0 {
          return;
        }
        first := false;
        looks := looks - 1;
      }
      o := Raised(Drain);
    }

    // The opening checks of a restore; nothing has been touched when they fail.
    method AssertIdentities(state: Journal) returns (o: Outcome)
      modifies `cluster, `bothAllowed
      ensures Drifts(old(cluster), cluster)
      ensures old(Safe()) ==> Safe()
      ensures o.Raised? ==> o.code in {Kubectl, Identity, Ownership}
      ensures o.Done? ==> RestoreAccepts(settings, state, cluster.deployments)
      ensures reliable ==> (o.Done? <==> RestoreAccepts(settings, state, cluster.deployments))
    {
      o := Done;
      for i := 0 to |state.snapshots|
        invariant o == Done && Drifts(old(cluster), cluster)
        invariant old(Safe()) ==> Safe()
        invariant forall k :: 0 <= k < i ==>
          var x := state.snapshots[k]; Identified(cluster.deployments, x.name, x.uid, x.name == settings.target.name)
      {
        var x := state.snapshots[i];
        o := AssertIdentity(x.name, Some(x.uid), x.name == settings.target.name);
        if !o.Done? {
          return;
        }
      }
      if state.newUid.Some? {
        o := AssertIdentity(settings.target.name, state.newUid, true);
      } else if !Names(state.snapshots, settings.target.name) {
        var d;
        o, d := Get(settings.target.name);
        if o.Done? && d.Some? {
          o := Raised(Identity);
        }
      }
    }

    method ReapplyOne(state: Journal, i: nat, ghost base: map<string, Deployment>) returns (o: Outcome)
      requires Safe() && idle && Restoring(settings, state, before, cluster, i) && i < |state.snapshots|
      requires PartlyBack(settings, state, before, base, cluster)
      modifies `cluster, `bothAllowed, `startedUnchecked, `log
      ensures Safe() && PartlyBack(settings, state, before, base, cluster)
      ensures o.Done? ==> Restoring(settings, state, before, cluster, i + 1)
      ensures o.Done? ==> log == PutOneBack(old(log), state.snapshots[i])
      ensures reliable ==> o.Done?
    {
      var x := state.snapshots[i];
      ghost var c := cluster;
      o := ApplyDocument(x.name, x.owned, x.spec);
      RestoreStep(settings, state, before, base, c, cluster, i);
      if o.Done? && Desired(x.spec) > 0 {
        c := cluster;
        o := Rollout(x.name);
        RestoringKept(settings, state, state, before, c, cluster, i + 1);
      }
    }

    // Re-applies every snapshot in order, once the target is stopped and an idle check has passed.
    method Reapply(state: Journal) returns (o: Outcome)
      requires Safe() && idle && Restoring(settings, state, before, cluster, 0)
      modifies `cluster, `bothAllowed, `startedUnchecked, `log
      ensures Safe() && PartlyBack(settings, state, before, old(cluster.deployments), cluster)
      ensures o.Done? ==> log == PutFirstBack(old(log), state.snapshots, |state.snapshots|)
      ensures o.Done? ==> Restoring(settings, state, before, cluster, |state.snapshots|)
      ensures reliable ==> o.Done?
    {
      hide PartlyBack, Restoring, NoOrphans, Exclusive;
      RestoringMeans(settings, state, before, cluster, 0);
      o := Done;
      for i := 0 to |state.snapshots|
        invariant o == Done && Safe() && Restoring(settings, state, before, cluster, i)
        invariant PartlyBack(settings, state, before, old(cluster.deployments), cluster)
        invariant log == PutFirstBack(old(log), state.snapshots, i)
      {
        o := ReapplyOne(state, i, old(cluster.deployments));
        if !o.Done? {
          return;
        }
      }
    }

    // Recognises the Deployments, then stops the target.
    method StopTarget(journaled: Journal) returns (o: Outcome)
      requires Safe() && JournalOk(settings, journaled, before, cluster)
      modifies `cluster, `bothAllowed, `idle, `log
      ensures Safe() && QuietBut(old(cluster), cluster, None)
      ensures cluster.deployments in {old(cluster).deployments, Scaled(old(cluster), settings.target.name, 0).deployments}
      ensures !RestoreAccepts(settings, journaled, old(cluster.deployments)) ==>
        !o.Done? && cluster.deployments == old(cluster.deployments)
      ensures reliable ==> (o.Done? <==> RestoreAccepts(settings, journaled, old(cluster.deployments)))
      ensures o.Done? ==> log == StopIfAny(old(log), settings.target.name, old(cluster.deployments))
      ensures o.Done? ==> Restoring(settings, journaled, before, cluster, 0)
    {
      hide JournalOk, Restoring, RestoreAccepts;
      ghost var c := cluster;
      o := AssertIdentities(journaled);
      if o.Done? {
        o := ScaleDown(settings.target.name);
        if o.Done? {
          JournalKept(settings, journaled, journaled, before, c, cluster);
          StillAccepted(settings, journaled, old(cluster.deployments), cluster.deployments);
          RestoreStarts(settings, journaled, before, cluster);
        }
      }
    }

    // First half of a restore: stop the target, journal that, look for active jobs.
    method StopReplacement(journaled: Journal) returns (o: Outcome, state: Journal)
      requires Inv() && JournalOk(settings, journaled, before, cluster)
      modifies `cluster, `bothAllowed, `idle, `journal, `log
      ensures Inv()
      ensures state == journaled.(phase := RollbackStoppedNew)
      ensures cluster.deployments in {old(cluster).deployments, Scaled(old(cluster), settings.target.name, 0).deployments}
      ensures !RestoreAccepts(settings, journaled, old(cluster.deployments)) ==>
        !o.Done? && cluster.deployments == old(cluster.deployments) && journal == old(journal)
      ensures reliable ==> (o.Done? <==> RestoreAccepts(settings, journaled, old(cluster.deployments)))
      ensures o.Done? ==>
        log == After(After(StopIfAny(old(log), settings.target.name, old(cluster.deployments)), Wrote(RollbackStoppedNew)), Checked)
      ensures o.Done? ==> idle && journal == Some(state) && Restoring(settings, state, before, cluster, 0)
      ensures journal in {old(journal), Some(state)}
    {
      hide JournalOk, Restoring, RestoreAccepts, SameObjects, Exclusive, NoOrphans;
      state := journaled.(phase := RollbackStoppedNew);
      ghost var c := cluster;
      o := StopTarget(journaled);
      SameAfterScale(settings, c, cluster);
      JournalKept(settings, journaled, state, before, c, cluster);
      if journal.Some? && journal.value.target == settings.target {
        JournalKept(settings, journal.value, journal.value, before, c, cluster);
      }
      if o.Done? {
        RestoringKept(settings, journaled, state, before, cluster, cluster, 0);
        o := JournalStopped(state);
      }
    }

    // Journals that the target is stopped, then looks for active jobs.
    method JournalStopped(state: Journal) returns (o: Outcome)
      requires Inv() && JournalOk(settings, state, before, cluster) && Restoring(settings, state, before, cluster, 0)
      modifies `cluster, `bothAllowed, `idle, `journal, `log
      ensures Inv() && cluster.deployments == old(cluster.deployments)
      ensures o.Done? ==> log == After(After(old(log), Wrote(state.phase)), Checked)
      ensures o.Done? ==> idle && journal == Some(state) && Restoring(settings, state, before, cluster, 0)
      ensures journal in {old(journal), Some(state)}
      ensures reliable ==> o.Done?
    {
      hide JournalOk, Restoring, SameObjects, Exclusive, NoOrphans;
      o := WriteJournal(state);
      if o.Done? {
        ghost var c := cluster;
        o := Check();
        SameAfterScale(settings, c, cluster);
        RestoringKept(settings, state, state, before, c, cluster, 0);
        JournalKept(settings, state, state, before, c, cluster);
      }
    }

    // Second half: put every snapshot back and remove a target that was not there.
    method PutBack(stopped: Journal) returns (o: Outcome)
      requires Safe() && idle && Restoring(settings, stopped, before, cluster, 0)
      modifies `cluster, `bothAllowed, `startedUnchecked, `log
      ensures Safe() && JournalOk(settings, stopped, before, cluster)
      ensures OthersKept(settings, old(cluster.deployments), cluster.deployments)
      ensures o.Done? ==> log == PutBackLog(old(log), settings, stopped)
      ensures o.Done? ==> RestoredTo(settings, before, cluster.deployments)
      ensures reliable ==> o.Done?
    {
      o := Reapply(stopped);
      if !o.Done? {
        return;
      }
      ghost var c := cluster;
      if !Names(stopped.snapshots, settings.target.name) {
        SnapshotFacts(settings, before);
        o := Delete(settings.target.name);
        if !o.Done? {
          return;
        }
      }
      BackInPlace(settings, stopped, before, c, cluster.deployments);
    }

    method Restore(journaled: Journal) returns (o: Outcome)
      requires Inv() && JournalOk(settings, journaled, before, cluster)
      modifies `cluster, `bothAllowed, `idle, `startedUnchecked, `journal, `log
      ensures Inv()
      ensures OthersKept(settings, old(cluster.deployments), cluster.deployments)
      // A restore that returns has put both Consumers back as the journal recorded them.
      ensures o.Done? ==> log == RestoreLog(old(log), settings, journaled, old(cluster.deployments))
      ensures o.Done? ==> journal == Some(journaled.(phase := RolledBack))
      ensures o.Done? || (journal != old(journal) && journal == Some(journaled.(phase := RolledBack))) ==>
        RestoredTo(settings, before, cluster.deployments)
      // A restore that does not recognise the Deployments changes nothing.
      ensures !RestoreAccepts(settings, journaled, old(cluster.deployments)) ==>
        !o.Done? && cluster.deployments == old(cluster.deployments) && journal == old(journal)
      // Nothing else stands in its way when every call works.
      ensures reliable ==> (o.Done? <==> RestoreAccepts(settings, journaled, old(cluster.deployments)))
      ensures journal in {old(journal), Some(journaled.(phase := RollbackStoppedNew)), Some(journaled.(phase := RolledBack))}
    {
      hide JournalOk, RestoreAccepts, Restoring, RestoredTo;
      var state;
      o, state := StopReplacement(journaled);
      if o.Done? {
        o := PutBack(state);
        if o.Done? {
          JournalKept(settings, state, state.(phase := RolledBack), before, cluster, cluster);
          o := WriteJournal(state.(phase := RolledBack));
        }
      }
    }

    // ------------------------------------------------------------ apply

    method StopOne(state: Journal, i: nat) returns (o: Outcome)
      requires Safe() && Stopping(settings, state, before, cluster, i) && i < |state.snapshots|
      modifies `cluster, `bothAllowed, `idle, `log
      ensures Safe()
      ensures Stopping(settings, state, before, cluster, if o.Done? then i + 1 else i)
      ensures o.Done? ==> log == After(old(log), Stopped(state.snapshots[i].name))
      ensures reliable ==> o.Done?
    {
      var x := state.snapshots[i];
      ghost var c := cluster;
      SnapshotFacts(settings, before);
      o := AssertIdentity(x.name, Some(x.uid), x.name == settings.target.name);
      if o.Done? {
        o := ScaleDown(x.name);
      }
      StopStep(settings, state, before, c, cluster, i);
    }

    // Stops every recorded Deployment, the old Consumer first.
    method StopRecorded(state: Journal) returns (o: Outcome)
      requires Safe() && JournalOk(settings, state, before, cluster) && before == cluster.deployments
      modifies `cluster, `bothAllowed, `idle, `log
      ensures Safe()
      ensures Stopping(settings, state, before, cluster, if o.Done? then |state.snapshots| else 0)
      ensures o.Done? ==> log == StopFirst(old(log), state.snapshots, |state.snapshots|)
      ensures reliable ==> o.Done?
    {
      o := Done;
      for i := 0 to |state.snapshots|
        invariant o == Done && Safe()
        invariant log == StopFirst(old(log), state.snapshots, i)
        invariant Stopping(settings, state, before, cluster, i)
      {
        o := StopOne(state, i);
        if !o.Done? {
          return;
        }
      }
    }

    // Journals the identity of the new Consumer, waits for it, journals its spec.
    method Record(stopped: Journal, release: Release) returns (o: Outcome, state: Journal)
      requires Safe() && JournalOk(settings, stopped, before, cluster) && journal == Some(stopped)
      requires Free(settings, cluster, settings.target.name)
      requires settings.target.name in cluster.deployments && cluster.deployments[settings.target.name].owned
      modifies `cluster, `bothAllowed, `journal, `log
      ensures Inv() && JournalOk(settings, state, before, cluster)
      ensures state.phase in {stopped.phase, NewStarted, Complete} && state.snapshots == stopped.snapshots
      ensures Free(settings, cluster, settings.target.name)
      ensures cluster.deployments == old(cluster.deployments)
      ensures journal.Some? && journal.value.snapshots == stopped.snapshots
      ensures journal.value.phase in {stopped.phase, NewStarted, Complete}
      ensures o.Done? ==> log == After(After(After(old(log), Wrote(NewStarted)), Ready(settings.target.name)), Wrote(Complete))
      ensures o.Done? ==>
        && var d := cluster.deployments[settings.target.name];
        && state == stopped.(newUid := Some(d.uid), appliedSpec := Some(d.spec), phase := Complete)
        && journal == Some(state)
      ensures reliable && smooth ==> o.Done?
      ensures reliable && !o.Done? ==> o.Raised? && RestoreAccepts(settings, state, cluster.deployments)
    {
      hide JournalOk;
      var name := settings.target.name;
      ghost var c := cluster;
      state := stopped;
      var d;
      o, d := Get(name);
      JournalKept(settings, stopped, stopped, before, c, cluster);
      if !o.Done? {
        return;
      }
      state := state.(newUid := Some(d.value.uid), phase := NewStarted);
      c := cluster;
      o := WriteJournal(state);
      if o.Done? {
        o := RolloutNew();
      }
      if o.Done? {
        o, d := Get(name);
      }
      JournalKept(settings, stopped, stopped, before, c, cluster);
      JournalKept(settings, stopped, state, before, c, cluster);
      KnownAccepted(settings, state, before, cluster);
      if o.Done? {
        state := state.(appliedSpec := Some(d.value.spec), phase := Complete);
        JournalKept(settings, stopped, state, before, c, cluster);
        o := WriteJournal(state);
      }
    }

    // Starts the new Consumer once the recorded ones are gone, and waits for it.
    method StartNew(stopped: Journal, release: Release) returns (o: Outcome, state: Journal)
      requires Inv() && JournalOk(settings, stopped, before, cluster)
      requires !MayRun(cluster, settings.target.name) && Free(settings, cluster, settings.target.name)
      requires journal == Some(stopped) && stopped.newUid.None? && RestoreAccepts(settings, stopped, cluster.deployments)
      modifies `cluster, `bothAllowed, `idle, `startedUnchecked, `journal, `log
      ensures Inv() && JournalOk(settings, state, before, cluster)
      ensures state.phase in {stopped.phase, NewStarted, Complete} && state.snapshots == stopped.snapshots
      ensures Free(settings, cluster, settings.target.name)
      ensures cluster.deployments in
        {old(cluster).deployments, Applied(old(cluster), settings.target.name, true, release.Rendered()).deployments}
      ensures journal.Some? && journal.value.snapshots == stopped.snapshots
      ensures journal.Some? && journal.value.phase in {stopped.phase, NewStarted, Complete}
      ensures o.Done? ==>
        && log == StartLog(old(log), settings)
        && cluster.deployments == Applied(old(cluster), settings.target.name, true, release.Rendered()).deployments
        && var uid := cluster.deployments[settings.target.name].uid;
        && state == stopped.(newUid := Some(uid), appliedSpec := Some(release.Rendered()), phase := Complete)
        && journal == Some(state)
      ensures reliable && smooth ==> o.Done?
      ensures reliable && !o.Done? ==> o.Raised? && RestoreAccepts(settings, state, cluster.deployments)
    {
      hide JournalOk, RestoreAccepts;
      var name := settings.target.name;
      ghost var c := cluster;
      state := stopped;
      o := CheckAgain();
      if o.Done? {
        o := ApplyDocument(name, true, release.Rendered());
      }
      JournalApplied(settings, stopped, before, c, cluster, release.Rendered());
      if o.Done? {
        o, state := Record(stopped, release);
      }
    }

    // The guarded part of an apply, from the first stop to the complete journal.
    method Switch(prepared: Journal, release: Release) returns (o: Outcome, state: Journal)
      requires Inv() && JournalOk(settings, prepared, before, cluster) && before == cluster.deployments
      requires journal == Some(prepared)
      requires prepared == Journal(settings.target, Prepared, Snapshots(settings, before), release.fingerprint, None, None)
      modifies `cluster, `bothAllowed, `idle, `startedUnchecked, `journal, `log
      ensures Inv() && JournalOk(settings, state, before, cluster) && state.phase != RolledBack
      ensures state.snapshots == prepared.snapshots
      ensures OthersKept(settings, before, cluster.deployments)
      ensures journal.Some? && journal.value.snapshots == prepared.snapshots && journal.value.phase != RolledBack
      ensures o.Done? ==> log == GuardedLog(old(log), settings, prepared.snapshots)
      ensures o.Done? ==> Switched(settings, release, before, cluster, journal)
      ensures reliable && smooth ==> o.Done?
      ensures reliable && !o.Done? ==> o.Raised? && RestoreAccepts(settings, state, cluster.deployments)
    {
      hide JournalOk, Stopping, Switched, RestoreAccepts;
      state := prepared;
      o := StopRecorded(state);
      ghost var c := cluster;
      StoppingMeans(settings, prepared, before, c, if o.Done? then |prepared.snapshots| else 0);
      if o.Done? {
        state := state.(phase := OldStopped);
        JournalKept(settings, prepared, state, before, c, c);
        o := WriteJournal(state);
        if o.Done? {
          StoppedAccepted(settings, prepared, state, before, c);
          o, state := StartNew(state, release);
          if o.Done? {
            SwitchDone(settings, release, prepared, before, c, cluster, state);
          }
        }
      }
    }

    // Reads one Deployment to be stopped and records it.
    method Take(name: string) returns (o: Outcome, snapshots: seq<Snapshot>)
      modifies `cluster, `bothAllowed
      ensures Drifts(old(cluster), cluster)
      ensures old(Safe()) ==> Safe()
      ensures reliable ==> o.Done?
      ensures snapshots == SnapshotIfAny(name, cluster.deployments)
    {
      var d;
      o, d := Get(name);
      snapshots := if d.Some? then [SnapshotOf(name, d.value)] else [];
    }

    // Reports an already complete switch, or says why it cannot be trusted.
    method Unchanged(previous: Journal) returns (o: Outcome, ready: nat)
      modifies `cluster, `bothAllowed
      ensures Drifts(old(cluster), cluster)
      ensures old(Safe()) ==> Safe()
      ensures o.Done? ==>
        && previous.newUid.Some?
        && Identified(cluster.deployments, settings.target.name, previous.newUid.value, true)
        && Some(cluster.deployments[settings.target.name].spec) == previous.appliedSpec
        && ready >= Desired(cluster.deployments[settings.target.name].spec)
    {
      ready := *;
      o := AssertIdentity(settings.target.name, previous.newUid, true);
      if !o.Done? {
        return;
      }
      var d;
      o, d := Get(settings.target.name);
      if o.Done? {
        if Some(d.value.spec) != previous.appliedSpec {
          o := Raised(Drift);
        } else if ready < Desired(d.value.spec) {
          o := Raised(Unhealthy);
        }
      }
    }

    // Everything before the first stop: what is there, whether it may be replaced, what to keep.
    method Prepare() returns (o: Outcome, snapshots: seq<Snapshot>)
      requires Inv()
      modifies `cluster, `bothAllowed, `idle, `log
      ensures Inv() && Drifts(old(cluster), cluster)
      ensures o.Done? ==> log == After(old(log), Checked)
      ensures o.Done? ==>
        && snapshots == Snapshots(settings, cluster.deployments)
        && (settings.target.name in cluster.deployments ==> cluster.deployments[settings.target.name].owned)
        && (settings.oldDeployment.Some? ==> settings.oldDeployment.value in cluster.deployments)
      ensures reliable ==>
        (o.Done? <==>
          && (settings.target.name in cluster.deployments ==> cluster.deployments[settings.target.name].owned)
          && (settings.oldDeployment.Some? ==> settings.oldDeployment.value in cluster.deployments))
    {
      snapshots := [];
      var d;
      o, d := Get(settings.target.name);
      if !o.Done? {
        return;
      }
      if d.Some? && !d.value.owned {
        o := Raised(Ownership);
        return;
      }
      o := Check();
      if !o.Done? {
        return;
      }
      var taken;
      if settings.oldDeployment.Some? {
        o, taken := Take(settings.oldDeployment.value);
        if !o.Done? {
          return;
        }
        if taken == [] {
          o := Raised(OldMissing);
          return;
        }
        snapshots := taken;
      }
      o, taken := Take(settings.target.name);
      snapshots := snapshots + taken;
    }

    // The handler of a failed switch: collect diagnostics, then restore; its own failures are swallowed.
    method RollBackAfterFailure(state: Journal) returns (crashed: bool)
      requires Inv() && JournalOk(settings, state, before, cluster) && state.phase != RolledBack
      requires journal.Some? && journal.value.snapshots == state.snapshots && journal.value.phase != RolledBack
      modifies `cluster, `bothAllowed, `idle, `startedUnchecked, `journal, `log
      ensures Inv()
      ensures OthersKept(settings, old(cluster.deployments), cluster.deployments)
      ensures journal.Some? && journal.value.snapshots == state.snapshots
      ensures journal.value.phase == RolledBack ==> RestoredTo(settings, before, cluster.deployments)
      // With calls that work, what is recognised is restored.
      ensures reliable && RestoreAccepts(settings, state, old(cluster.deployments)) ==>
        && !crashed && journal == Some(state.(phase := RolledBack))
        && RestoredTo(settings, before, cluster.deployments)
    {
      var o := Observe();
      if !o.Crashed? {
        o := Restore(state);
      }
      crashed := o.Crashed?;
    }

    // A switch whose guards have passed.
    method Begin(snapshots: seq<Snapshot>, release: Release) returns (o: Outcome)
      requires Inv() && snapshots == Snapshots(settings, cluster.deployments)
      requires settings.target.name in cluster.deployments ==> cluster.deployments[settings.target.name].owned
      requires settings.oldDeployment.Some? ==> settings.oldDeployment.value in cluster.deployments
      modifies this
      ensures Inv()
      ensures OthersKept(settings, old(cluster.deployments), cluster.deployments)
      ensures o.Done? ==> log == GuardedLog(After(old(log), Wrote(Prepared)), settings, snapshots)
      ensures o.Done? ==> Switched(settings, release, old(cluster.deployments), cluster, journal)
      ensures !o.Done? ==>
        || (journal in {old(journal), None} && cluster.deployments == old(cluster.deployments))
        || Recoverable(settings, old(cluster.deployments), before, cluster.deployments, journal)
      ensures o.Done? ==> before == old(cluster.deployments)
      ensures reliable && smooth ==> o.Done?
      // A switch that fails while the calls work has been rolled back.
      ensures reliable && !o.Done? ==>
        && o.Raised? && journal.Some? && journal.value.phase == RolledBack
        && RestoredTo(settings, old(cluster.deployments), cluster.deployments)
    {
      hide JournalOk, RestoredTo, Switched, RestoreAccepts;
      var state := Journal(settings.target, Prepared, snapshots, release.fingerprint, None, None);
      if journal.Some? {
        o := ArchiveJournal();
        if !o.Done? {
          return;
        }
      }
      before := cluster.deployments;
      FreshJournal(settings, state, cluster);
      o := WriteJournal(state);
      if !o.Done? {
        return;
      }
      o, state := Switch(state, release);
      if o.Raised? {
        var crashed := RollBackAfterFailure(state);
        o := if crashed then Crashed else o;
      }
    }

    method Deploy(release: Release, paused: bool) returns (o: Outcome)
      requires Inv()
      modifies this
      ensures Inv()
      ensures OthersKept(settings, old(cluster.deployments), cluster.deployments)
      // Refused before anything is looked at.
      ensures !paused ==> o == Raised(Quiesce)
      ensures paused && JournalBlocks(settings, old(journal)) && !SameRelease(settings, old(journal), release) ==> o == Raised(JournalGuard)
      ensures !paused || JournalBlocks(settings, old(journal)) ==>
        cluster == old(cluster) && journal == old(journal) && before == old(before)
      // The same release again changes nothing.
      ensures SameRelease(settings, old(journal), release) ==>
        cluster.deployments == old(cluster.deployments) && journal == old(journal)
      ensures SameRelease(settings, old(journal), release) && o.Done? ==>
        && old(journal).value.newUid.Some?
        && Identified(cluster.deployments, settings.target.name, old(journal).value.newUid.value, true)
        && Some(cluster.deployments[settings.target.name].spec) == old(journal).value.appliedSpec
      // A switch that returns is complete, and its journal can undo it.
      ensures o.Done? && !SameRelease(settings, old(journal), release) ==>
        && log == SwitchLog(old(log), settings, old(cluster.deployments))
        && Switched(settings, release, old(cluster.deployments), cluster, journal) && before == old(cluster.deployments)
      // One that does not has changed nothing, or its journal describes the cluster as it was.
      ensures !o.Done? ==>
        || (journal in {old(journal), None} && cluster.deployments == old(cluster.deployments))
        || Recoverable(settings, old(cluster.deployments), before, cluster.deployments, journal)
      ensures reliable && paused && !SameRelease(settings, old(journal), release) ==>
        if !DeployAccepts(settings, old(journal), old(cluster.deployments)) then !o.Done?
        else if smooth then o.Done?
        // A switch that fails while the calls work has been rolled back.
        else o.Done? || (o.Raised? && journal.Some? && journal.value.phase == RolledBack
                         && RestoredTo(settings, old(cluster.deployments), cluster.deployments))
    {
      if !paused {
        o := Raised(Quiesce);
        return;
      }
      if journal.Some? {
        var previous := journal.value;
        if previous.target != settings.target {
          o := Raised(JournalGuard);
          return;
        }
        if previous.phase == Complete && previous.fingerprint == release.fingerprint {
          var ready;
          o, ready := Unchanged(previous);
          return;
        }
        if Unfinished(previous.phase) {
          o := Raised(JournalGuard);
          return;
        }
      }
      var snapshots;
      o, snapshots := Prepare();
      if o.Done? {
        o := Begin(snapshots, release);
      }
    }

    method RollBack(paused: bool) returns (o: Outcome)
      requires Inv()
      modifies `cluster, `bothAllowed, `idle, `startedUnchecked, `journal, `log
      ensures Inv()
      ensures OthersKept(settings, old(cluster.deployments), cluster.deployments)
      ensures o.Done? ==>
        && old(journal).Some? && old(journal).value.target == settings.target
        && journal == Some(old(journal).value.(phase := RolledBack))
        && log == RestoreLog(old(log), settings, old(journal).value, old(cluster.deployments))
        && RestoredTo(settings, before, cluster.deployments)
      ensures journal == old(journal) || (old(journal).Some? && old(journal).value.target == settings.target
        && journal in {Some(old(journal).value.(phase := RollbackStoppedNew)), Some(old(journal).value.(phase := RolledBack))})
      ensures (old(journal).Some? && old(journal).value.target == settings.target
               && !RestoreAccepts(settings, old(journal).value, old(cluster.deployments)))
        ==> !o.Done? && cluster.deployments == old(cluster.deployments) && journal == old(journal)
      ensures reliable ==>
        (o.Done? <==>
          && paused && old(journal).Some? && old(journal).value.target == settings.target
          && RestoreAccepts(settings, old(journal).value, old(cluster.deployments)))
    {
      if !paused {
        o := Raised(Quiesce);
      } else if journal.None? {
        o := Raised(Local);
      } else if journal.value.target != settings.target {
        o := Raised(JournalGuard);
      } else {
        o := Restore(journal.value);
      }
    }

    method Execute(command: Command) returns (o: Outcome)
      requires Inv()
      modifies this
      ensures Inv()
      ensures OthersKept(settings, old(cluster.deployments), cluster.deployments)
      // No apply replaces the journal of an unfinished switch; the snapshots survive every command.
      ensures old(journal).Some? && Unfinished(old(journal).value.phase) ==>
        journal.Some? && before == old(before) && journal.value.snapshots == old(journal).value.snapshots
      // A stuck switch stays stuck, whatever is tried.
      ensures old(Stuck(settings, journal, cluster.deployments)) ==>
        !o.Done? && journal == old(journal) && cluster.deployments == old(cluster.deployments)
      // One that is not can be rolled back when the calls succeed.
      ensures
        (reliable && command == Rollback(true) && old(journal).Some? && old(journal).value.target == settings.target
         && Unfinished(old(journal).value.phase) && !old(Stuck(settings, journal, cluster.deployments))) ==> o.Done?
    {
      match command
      case Apply(release, paused) => o := Deploy(release, paused);
      case Rollback(paused) => o := RollBack(paused);
    }

    // Any run of commands, each of which may fail or die anywhere.
    method Operate(commands: seq<Command>) returns (outcomes: seq<Outcome>)
      requires Inv()
      modifies this
      ensures Inv()
      ensures |outcomes| == |commands|
      ensures !bothAllowed && !startedUnchecked
      ensures OthersKept(settings, old(cluster.deployments), cluster.deployments)
      ensures old(Stuck(settings, journal, cluster.deployments)) ==>
        (forall i :: 0 <= i < |outcomes| ==> !outcomes[i].Done?) && cluster.deployments == old(cluster.deployments)
      // Any other unfinished switch can be rolled back: stuck are exactly these two kinds.
      ensures journal.Some? && journal.value.target == settings.target && Unfinished(journal.value.phase) ==>
        (Stuck(settings, journal, cluster.deployments) <==>
          Vanished(settings, journal.value, cluster.deployments) || Unrecorded(settings, journal.value, cluster.deployments))
    {
      outcomes := [];
      for i := 0 to |commands|
        invariant |outcomes| == i && Inv()
        invariant OthersKept(settings, old(cluster.deployments), cluster.deployments)
        invariant old(Stuck(settings, journal, cluster.deployments)) ==>
          && (forall k :: 0 <= k < i ==> !outcomes[k].Done?)
          && journal == old(journal) && cluster.deployments == old(cluster.deployments)
      {
        var o := Execute(commands[i]);
        outcomes := outcomes + [o];
      }
      if journal.Some? && journal.value.target == settings.target && Unfinished(journal.value.phase) {
        StuckExactly(settings, journal.value, before, cluster);
      }
    }

    // An apply that got as far as its journal, then rollbacks until one returns: whatever failed
    // on the way, both Consumers are back where the apply found them.
    method SwitchAndBack(release: Release, attempts: nat) returns (restored: bool)
      requires Inv() && !JournalBlocks(settings, journal) && !SameRelease(settings, journal, release)
      modifies this
      ensures Inv()
      ensures restored ==>
        && RestoredTo(settings, old(cluster.deployments), cluster.deployments)
        && OthersKept(settings, old(cluster.deployments), cluster.deployments)
    {
      var o := Deploy(release, true);
      restored := false;
      if o.Done? || (journal.Some? && Unfinished(journal.value.phase)) {
        var left := attempts;
        while left > 0 && !restored
          invariant Inv() && before == old(cluster.deployments)
          invariant restored ==> RestoredTo(settings, before, cluster.deployments)
          invariant OthersKept(settings, old(cluster.deployments), cluster.deployments)
        {
          o := RollBack(true);
          restored := o.Done?;
          left := left - 1;
        }
      }
    }
  }
}
