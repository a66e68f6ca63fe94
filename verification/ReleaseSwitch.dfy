/**
 The RayCluster deployer: each release has its own Consumer Deployment, created at rest; `apply`
 switches the previous Consumer off and the new one on, `rollback` switches back.
 */
module ReleaseSwitch {
  import opened Wrappers
  import opened Cluster

  // Raised is a Python exception, Crashed the death of the process: no handler runs.
  datatype Outcome = Done | Raised | Crashed

  // A Consumer being replaced, when there is one, by the Consumer `name`.
  datatype Settings = Settings(name: string, previous: Option<string>)

  datatype State = Switching | Active | RolledBack

  // switch.json.  A Deployment's template stands for the digest its annotation carries.
  datatype Journal = Journal(digest: int, consumerUid: nat, previousUid: Option<nat>, previousReplicas: nat, state: State)

  datatype Command = Apply(digest: int) | Rollback

  function ReplicasOf(c: Cluster, name: string): nat {
    if name in c.deployments then Desired(c.deployments[name].spec) else 0
  }

  // A missing count reads as none where the new Consumer is looked at.
  function Asked(d: Option<Deployment>): nat {
    if d.Some? && d.value.spec.replicas.Some? then d.value.spec.replicas.value else 0
  }

  // Not both Consumers want replicas.
  predicate Exclusive(s: Settings, c: Cluster) {
    s.previous.Some? && s.previous != Some(s.name) ==> !(Wants(c, s.previous.value) && Wants(c, s.name))
  }

  // A Consumer may be given replicas while the other wants none.
  predicate MayScale(s: Settings, c: Cluster, name: string, replicas: nat) {
    replicas > 0 && s.previous.Some? ==> !Wants(c, if name == s.name then s.previous.value else s.name)
  }

  // Both Consumers of a journal are still the ones it knows.
  predicate Known(s: Settings, j: Journal, ds: map<string, Deployment>) {
    && s.name in ds && ds[s.name].owned && ds[s.name].spec.template == j.digest && ds[s.name].uid == j.consumerUid
    && (s.previous.Some? ==>
          && s.previous.value != s.name && s.previous.value in ds
          && j.previousUid == Some(ds[s.previous.value].uid))
  }

  // Only the replica counts of the two Consumers change, and the new one may come into being.
  predicate OnlySwitched(s: Settings, ds: map<string, Deployment>, ds': map<string, Deployment>) {
    && (forall n :: n in ds && n != s.name ==> n in ds' && ds'[n].(spec := ds[n].spec) == ds[n] && ds'[n].spec.template == ds[n].spec.template)
    && (forall n :: n in ds && n != s.name && s.previous != Some(n) ==> n in ds' && ds'[n] == ds[n])
    && (forall n :: n in ds' && n != s.name ==> n in ds)
    && (s.name in ds ==> s.name in ds' && ds'[s.name].uid == ds[s.name].uid)
  }

  // Switched off and on, as a completed rollback leaves it.
  predicate Back(s: Settings, j: Journal, ds: map<string, Deployment>) {
    && s.name in ds && ds[s.name].spec.replicas == Some(0)
    && (s.previous.Some? ==> s.previous.value in ds && ds[s.previous.value].spec.replicas == Some(j.previousReplicas))
  }

  predicate Forward(s: Settings, ds: map<string, Deployment>) {
    && s.name in ds && ds[s.name].spec.replicas == Some(1)
    && (s.previous.Some? ==> s.previous.value in ds && ds[s.previous.value].spec.replicas == Some(0))
  }

  lemma SwitchedTwice(s: Settings, a: map<string, Deployment>, b: map<string, Deployment>, c: map<string, Deployment>)
    requires OnlySwitched(s, a, b) && OnlySwitched(s, b, c)
    ensures OnlySwitched(s, a, c)
  {
  }

  lemma ScaledSwitches(s: Settings, c: Cluster, name: string, replicas: nat)
    requires name == s.name || s.previous == Some(name)
    ensures OnlySwitched(s, c.deployments, Scaled(c, name, replicas).deployments)
    ensures forall j :: Known(s, j, c.deployments) ==> Known(s, j, Scaled(c, name, replicas).deployments)
  {
  }

  lemma ScaledExclusive(s: Settings, c: Cluster, name: string, replicas: nat)
    requires Exclusive(s, c) && MayScale(s, c, name, replicas)
    requires name == s.name || s.previous == Some(name)
    ensures Exclusive(s, Scaled(c, name, replicas))
  {
  }

  // The new Consumer rendered and created at rest.
  lemma AppliedSwitches(s: Settings, c: Cluster, digest: int)
    requires s.name in c.deployments ==> c.deployments[s.name].owned && c.deployments[s.name].spec.template == digest
    ensures OnlySwitched(s, c.deployments, Applied(c, s.name, true, Spec(Some(0), digest)).deployments)
    ensures forall j :: Known(s, j, c.deployments) && j.digest == digest ==>
      Known(s, j, Applied(c, s.name, true, Spec(Some(0), digest)).deployments)
  {
  }

  // The same switch, whatever its state.
  predicate SameSwitch(j: Journal, j': Journal) {
    j' == j.(state := j'.state)
  }

  predicate PreviousOk(s: Settings, ds: map<string, Deployment>) {
    s.previous.Some? ==> s.previous.value in ds && s.previous.value != s.name
  }

  predicate ReleaseOk(s: Settings, ds: map<string, Deployment>, digest: int) {
    s.name in ds ==> ds[s.name].owned && ds[s.name].spec.template == digest
  }

  function Current(s: Settings, ds: map<string, Deployment>): Option<Deployment> {
    if s.name in ds then Some(ds[s.name]) else None
  }

  // An apply has something to do, or finds the release already running.
  predicate ApplyAccepts(s: Settings, j: Option<Journal>, ds: map<string, Deployment>, digest: int) {
    && PreviousOk(s, ds) && ReleaseOk(s, ds, digest)
    && (j.Some? ==>
          && j.value.digest == digest && j.value.state != Switching && Known(s, j.value, ds)
          && j.value.state != (if Asked(Current(s, ds)) > 0 then RolledBack else Active))
  }

  function NewJournal(s: Settings, c: Cluster, digest: int): Journal
    requires s.name in c.deployments && PreviousOk(s, c.deployments)
  {
    Journal(digest, c.deployments[s.name].uid,
            if s.previous.Some? then Some(c.deployments[s.previous.value].uid) else None,
            if s.previous.Some? then ReplicasOf(c, s.previous.value) else 0, Switching)
  }

  // Validated targets are all a restore needs: the new Consumer off and the previous one at its
  // count is back where the journal says, exclusive throughout, and still recognised.
  lemma KnownGoesBack(s: Settings, j: Journal, c: Cluster)
    requires Known(s, j, c.deployments) && Exclusive(s, c)
    ensures
      var off := Scaled(c, s.name, 0);
      var back := if s.previous.Some? then Scaled(off, s.previous.value, j.previousReplicas) else off;
      && Exclusive(s, off) && Exclusive(s, back)
      && Back(s, j, back.deployments) && Known(s, j, back.deployments)
      && OnlySwitched(s, c.deployments, back.deployments)
  {
    var off := Scaled(c, s.name, 0);
    ScaledSwitches(s, c, s.name, 0);
    if s.previous.Some? {
      ScaledSwitches(s, off, s.previous.value, j.previousReplicas);
      SwitchedTwice(s, c.deployments, off.deployments, Scaled(off, s.previous.value, j.previousReplicas).deployments);
    }
  }

  class Releaser {
    const settings: Settings
    const reliable: bool  // no call fails and every check passes
    const smooth: bool    // the new Consumer becomes ready

    var cluster: Cluster
    var journal: Option<Journal>
    ghost var bothDesired: bool       // some state so far wanted replicas of both Consumers
    ghost var checked: bool           // the preflight of the current apply has passed
    ghost var startedUnchecked: bool  // the new Consumer was given replicas without it

    ghost predicate Safe()
      reads this
    {
      !bothDesired && Exclusive(settings, cluster) && !startedUnchecked
    }

    // Both Consumers are the ones the journal recorded.
    ghost predicate Trusted()
      reads this
    {
      journal.Some? ==> Known(settings, journal.value, cluster.deployments)
    }

    constructor (settings: Settings, reliable: bool, smooth: bool, cluster: Cluster)
      requires Exclusive(settings, cluster)
      ensures this.settings == settings && this.reliable == reliable && this.smooth == smooth
      ensures this.cluster == cluster && journal == None && Safe() && Trusted()
    {
      this.settings, this.reliable, this.smooth, this.cluster, this.journal := settings, reliable, smooth, cluster, None;
      bothDesired, checked, startedUnchecked := false, false, false;
    }

    // ------------------------------------------------------------ kubectl

    method Weather() returns (effect: bool, o: Outcome)
      ensures o.Done? ==> effect
      ensures reliable ==> o.Done?
    {
      effect, o := true, Done;
      if !reliable {
        var kind: int := *;
        effect := *;
        match kind
        case 0 => o := Raised;
        case 1 => o := Crashed;
        case _ => effect := true;
      }
    }

    // A call that only looks: reads and waits.
    method Look() returns (o: Outcome)
      ensures reliable ==> o.Done?
    {
      var effect;
      effect, o := Weather();
    }

    // The new cluster is up, its preflight Job passes and the previous one has no active job.
    method Preflight() returns (o: Outcome)
      modifies `checked
      ensures o.Done? ==> checked
      ensures reliable ==> o.Done?
    {
      checked := false;
      o := Look();
      if o.Done? {
        checked := true;
      }
    }

    method Scale(name: string, replicas: nat) returns (o: Outcome)
      requires name == settings.name || settings.previous == Some(name)
      modifies `cluster, `bothDesired, `startedUnchecked
      ensures (old(Safe()) && MayScale(settings, old(cluster), name, replicas) && (name == settings.name && replicas > 0 ==> checked))
        ==> Safe()
      ensures cluster in {old(cluster), Scaled(old(cluster), name, replicas)}
      ensures o.Done? ==> cluster == Scaled(old(cluster), name, replicas)
      ensures reliable ==> o.Done?
    {
      var effect;
      effect, o := Weather();
      if effect {
        if Exclusive(settings, cluster) && MayScale(settings, cluster, name, replicas) {
          ScaledExclusive(settings, cluster, name, replicas);
        }
        cluster := Scaled(cluster, name, replicas);
        bothDesired := bothDesired || !Exclusive(settings, cluster);
        startedUnchecked := startedUnchecked || (name == settings.name && replicas > 0 && !checked);
      }
    }

    // The rendered Consumer has no replicas.
    method ApplyManifest(digest: int) returns (o: Outcome)
      modifies `cluster, `bothDesired
      ensures old(Safe()) ==> Safe()
      ensures cluster in {old(cluster), Applied(old(cluster), settings.name, true, Spec(Some(0), digest))}
      ensures o.Done? ==> cluster == Applied(old(cluster), settings.name, true, Spec(Some(0), digest))
      ensures reliable ==> o.Done?
    {
      var effect;
      effect, o := Weather();
      if effect {
        cluster := Applied(cluster, settings.name, true, Spec(Some(0), digest));
        bothDesired := bothDesired || !Exclusive(settings, cluster);
      }
    }

    method SaveJournal(j: Journal) returns (o: Outcome)
      modifies `journal
      ensures journal in {old(journal), Some(j)}
      ensures o.Done? ==> journal == Some(j)
      ensures reliable ==> o.Done?
    {
      var effect;
      effect, o := Weather();
      if effect {
        journal := Some(j);
      }
    }

    // ------------------------------------------------------------ switching

    // Scale one Consumer and wait for the rollout.
    method ScaleAndWait(name: string, replicas: nat) returns (o: Outcome)
      requires Safe() && (name == settings.name || settings.previous == Some(name))
      requires MayScale(settings, cluster, name, replicas) && (name == settings.name ==> replicas == 0)
      modifies `cluster, `bothDesired, `startedUnchecked
      ensures Safe()
      ensures cluster in {old(cluster), Scaled(old(cluster), name, replicas)}
      ensures o.Done? ==> cluster == Scaled(old(cluster), name, replicas)
      ensures reliable ==> o.Done?
    {
      o := Scale(name, replicas);
      if o.Done? {
        o := Look();
      }
    }

    // Start the new Consumer, which may not become ready however well the calls work.
    method StartNew() returns (o: Outcome)
      requires Safe() && checked && MayScale(settings, cluster, settings.name, 1)
      modifies `cluster, `bothDesired, `startedUnchecked
      ensures Safe()
      ensures cluster in {old(cluster), Scaled(old(cluster), settings.name, 1)}
      ensures o.Done? ==> cluster == Scaled(old(cluster), settings.name, 1)
      ensures reliable ==> !o.Crashed? && (smooth ==> o.Done?)
    {
      o := Scale(settings.name, 1);
      if o.Done? {
        o := Look();
      }
      if o.Done? && !smooth {
        var ready: bool := *;
        o := if ready then Done else Raised;
      }
    }

    method Get(name: string) returns (o: Outcome, d: Option<Deployment>)
      ensures reliable ==> o.Done?
      ensures d == if name in cluster.deployments then Some(cluster.deployments[name]) else None
    {
      o := Look();
      d := if name in cluster.deployments then Some(cluster.deployments[name]) else None;
    }

    // Reads both Consumers and compares them with what the journal recorded.
    method ValidateSwitchTargets(j: Journal) returns (o: Outcome)
      ensures o.Done? ==> Known(settings, j, cluster.deployments)
      ensures reliable ==> !o.Crashed? && (o.Done? <==> Known(settings, j, cluster.deployments))
    {
      var current;
      o, current := Get(settings.name);
      if !o.Done? {
        return;
      }
      if current.None? || !current.value.owned || current.value.spec.template != j.digest || current.value.uid != j.consumerUid {
        return Raised;
      }
      if settings.previous.Some? {
        var previous;
        o, previous := Get(settings.previous.value);
        if o.Done? && (previous.None? || settings.previous.value == settings.name || Some(previous.value.uid) != j.previousUid) {
          o := Raised;
        }
      }
    }

    // The new Consumer off, then the previous one back to its count.
    method RestoreSwitch(j: Journal) returns (o: Outcome)
      requires Safe() && journal.Some?
      modifies `cluster, `journal, `bothDesired, `startedUnchecked
      ensures Safe() && (Known(settings, j, old(cluster.deployments)) ==> Known(settings, j, cluster.deployments))
      ensures OnlySwitched(settings, old(cluster.deployments), cluster.deployments)
      ensures journal in {old(journal), Some(j.(state := RolledBack))}
      ensures journal != old(journal) || o.Done? ==> journal == Some(j.(state := RolledBack)) && Back(settings, j, cluster.deployments)
      // One that does not recognise the Consumers changes nothing; nothing else stands in its way.
      ensures !Known(settings, j, old(cluster.deployments)) ==> !o.Done? && cluster == old(cluster) && journal == old(journal)
      ensures reliable ==> (o.Done? <==> Known(settings, j, old(cluster.deployments)))
      ensures reliable && !o.Done? ==> o.Raised?
    {
      Unchanged(settings, cluster.deployments);
      o := ValidateSwitchTargets(j);
      if !o.Done? {
        return;
      }
      ScaledSwitches(settings, cluster, settings.name, 0);
      o := ScaleAndWait(settings.name, 0);
      if !o.Done? {
        return;
      }
      if settings.previous.Some? {
        ghost var off := cluster;
        ScaledSwitches(settings, cluster, settings.previous.value, j.previousReplicas);
        o := ScaleAndWait(settings.previous.value, j.previousReplicas);
        SwitchedTwice(settings, old(cluster.deployments), off.deployments, cluster.deployments);
        if !o.Done? {
          return;
        }
      }
      o := SaveJournal(j.(state := RolledBack));
    }
  
    // From the journal that says so to both Consumers switched; undone on failure.
    method SwitchOver(j: Journal) returns (o: Outcome)
      requires Safe() && journal == Some(j) && j.state == Switching && Known(settings, j, cluster.deployments)
      requires !Wants(cluster, settings.name) && checked
      modifies `cluster, `journal, `bothDesired, `startedUnchecked
      ensures Safe() && Known(settings, j, cluster.deployments)
      ensures OnlySwitched(settings, old(cluster.deployments), cluster.deployments)
      ensures journal in {Some(j), Some(j.(state := Active)), Some(j.(state := RolledBack))}
      ensures journal.value.state == RolledBack ==> Back(settings, j, cluster.deployments)
      ensures o.Done? ==> journal == Some(j.(state := Active)) && Forward(settings, cluster.deployments)
      ensures reliable && smooth ==> o.Done?
      // A switch that fails while the calls work has been rolled back.
      ensures reliable && !o.Done? ==> o.Raised? && journal == Some(j.(state := RolledBack))
    {
      hide OnlySwitched, Exclusive;
      ghost var start := cluster;
      o := Done;
      if settings.previous.Some? {
        ScaledSwitches(settings, cluster, settings.previous.value, 0);
        o := ScaleAndWait(settings.previous.value, 0);
      }
      Unchanged(settings, start.deployments);
      ghost var off := cluster;
      if o.Done? {
        ScaledSwitches(settings, cluster, settings.name, 1);
        o := StartNew();
        Unchanged(settings, off.deployments);
        SwitchedTwice(settings, start.deployments, off.deployments, cluster.deployments);
      }
      if o.Raised? {
        ghost var on := cluster;
        var restored := RestoreSwitch(j);
        SwitchedTwice(settings, start.deployments, on.deployments, cluster.deployments);
        o := if restored.Crashed? then Crashed else Raised;
      } else if o.Done? {
        o := SaveJournal(j.(state := Active));
      }
    }

    // Past all refusals: create what is missing, check it, and switch.
    method Install(digest: int) returns (o: Outcome)
      requires Safe() && Trusted() && PreviousOk(settings, cluster.deployments) && ReleaseOk(settings, cluster.deployments, digest)
      requires journal.Some? ==> journal.value.digest == digest && journal.value.state == RolledBack
      modifies `cluster, `journal, `bothDesired, `checked, `startedUnchecked
      ensures Safe() && Trusted() && OnlySwitched(settings, old(cluster.deployments), cluster.deployments)
      ensures old(journal).Some? ==> journal.Some? && SameSwitch(old(journal).value, journal.value)
      ensures old(journal).None? && journal.Some? && settings.previous.Some? ==>
        journal.value.previousReplicas == ReplicasOf(old(cluster), settings.previous.value)
      ensures journal.None? && settings.previous.Some? ==> ReplicasOf(cluster, settings.previous.value) == ReplicasOf(old(cluster), settings.previous.value)
      ensures journal != old(journal) && journal.value.state == RolledBack ==> Back(settings, journal.value, cluster.deployments)
      ensures o.Done? ==> journal.Some? && journal.value.state == Active && Forward(settings, cluster.deployments)
      ensures reliable && smooth ==> o.Done?
      ensures reliable && !o.Done? ==>
        o.Raised? && journal.Some? && journal.value.state == RolledBack && Back(settings, journal.value, cluster.deployments)
    {
      hide OnlySwitched, Exclusive;
      ghost var start := cluster;
      AppliedSwitches(settings, cluster, digest);
      Unchanged(settings, start.deployments);
      o := ApplyManifest(digest);
      if o.Done? {
        o := Preflight();
      }
      if !o.Done? {
        return;
      }
      var j := if journal.Some? then journal.value else NewJournal(settings, cluster, digest);
      o := ValidateSwitchTargets(j);
      if o.Done? {
        j := j.(state := Switching);
        o := SaveJournal(j);
        if o.Done? {
          ghost var made := cluster;
          o := SwitchOver(j);
          SwitchedTwice(settings, start.deployments, made.deployments, cluster.deployments);
        }
      }
    }

    method Apply(digest: int) returns (o: Outcome)
      requires Safe()
      modifies `cluster, `journal, `bothDesired, `checked, `startedUnchecked
      ensures Safe() && (old(Trusted()) ==> Trusted()) && OnlySwitched(settings, old(cluster.deployments), cluster.deployments)
      // An unfinished switch, or another release, is left alone.
      ensures old(journal).Some? && (old(journal).value.state == Switching || old(journal).value.digest != digest) ==>
        !o.Done? && cluster == old(cluster) && journal == old(journal)
      ensures !ApplyAccepts(settings, old(journal), old(cluster.deployments), digest) ==>
        !o.Done? && cluster == old(cluster) && journal == old(journal)
      // The journal of the first switch is kept, and with it the count to go back to.
      ensures old(journal).Some? ==> journal.Some? && SameSwitch(old(journal).value, journal.value)
      ensures old(journal).None? && journal.Some? && settings.previous.Some? ==>
        journal.value.previousReplicas == ReplicasOf(old(cluster), settings.previous.value)
      ensures journal.None? && settings.previous.Some? ==> ReplicasOf(cluster, settings.previous.value) == ReplicasOf(old(cluster), settings.previous.value)
      ensures journal != old(journal) && journal.value.state == RolledBack ==> Back(settings, journal.value, cluster.deployments)
      ensures o.Done? ==>
        if Asked(Current(settings, old(cluster.deployments))) > 0 then cluster == old(cluster) && journal == old(journal)
        else journal.Some? && journal.value.state == Active && Forward(settings, cluster.deployments)
      ensures reliable ==>
        if !ApplyAccepts(settings, old(journal), old(cluster.deployments), digest) then o.Raised?
        else if smooth then o.Done?
        // A switch that fails while the calls work has been rolled back.
        else o.Done? || (o.Raised? && journal.Some? && journal.value.state == RolledBack && Back(settings, journal.value, cluster.deployments))
    {
      hide OnlySwitched, Exclusive;
      Unchanged(settings, cluster.deployments);
      if journal.Some? && journal.value.digest != digest {
        return Raised;
      }
      o := Look();
      if !o.Done? {
        return;
      }
      if !PreviousOk(settings, cluster.deployments) || !ReleaseOk(settings, cluster.deployments, digest) {
        return Raised;
      }
      o := Look();
      if !o.Done? {
        return;
      }
      if journal.Some? && journal.value.state == Switching {
        return Raised;
      }
      if journal.Some? {
        o := ValidateSwitchTargets(journal.value);
        if !o.Done? {
          return;
        }
      }
      if Asked(Current(settings, cluster.deployments)) > 0 {
        if journal.Some? && journal.value.state == RolledBack {
          return Raised;
        }
        o := Look();
        return;
      }
      if journal.Some? && journal.value.state == Active {
        return Raised;
      }
      o := Install(digest);
    }

    // Whatever happened before, a rollback that recognises the Consumers and whose calls succeed goes back.
    method RollBack() returns (o: Outcome)
      requires Safe()
      modifies `cluster, `journal, `bothDesired, `startedUnchecked
      ensures Safe() && (old(Trusted()) ==> Trusted()) && OnlySwitched(settings, old(cluster.deployments), cluster.deployments)
      ensures old(journal).Some? ==> journal.Some? && SameSwitch(old(journal).value, journal.value)
      ensures old(journal).None? ==> o == Raised && cluster == old(cluster) && journal.None?
      ensures o.Done? ==>
        old(journal).Some? && journal == Some(old(journal).value.(state := RolledBack))
        && Back(settings, journal.value, cluster.deployments)
      ensures old(journal).Some? && !Known(settings, old(journal).value, old(cluster.deployments)) ==>
        !o.Done? && cluster == old(cluster) && journal == old(journal)
      ensures reliable ==> (o.Done? <==> old(journal).Some? && Known(settings, old(journal).value, old(cluster.deployments)))
    {
      hide OnlySwitched, Exclusive;
      Unchanged(settings, cluster.deployments);
      if journal.None? {
        return Raised;
      }
      o := RestoreSwitch(journal.value);
    }

    // Any run of applies and rollbacks, each of which may fail or die anywhere.
    method Operate(commands: seq<Command>) returns (outcomes: seq<Outcome>)
      requires Safe()
      modifies `cluster, `journal, `bothDesired, `checked, `startedUnchecked
      ensures Safe() && !bothDesired && !startedUnchecked && |outcomes| == |commands|
      ensures old(Trusted()) ==> Trusted()
      ensures OnlySwitched(settings, old(cluster.deployments), cluster.deployments)
      ensures old(journal).Some? ==> journal.Some? && SameSwitch(old(journal).value, journal.value)
      // The count a rollback goes back to is the previous Consumer's when the first switch began.
      ensures old(journal).None? && settings.previous.Some? ==>
        ReplicasOf(old(cluster), settings.previous.value) ==
          if journal.Some? then journal.value.previousReplicas else ReplicasOf(cluster, settings.previous.value)
    {
      hide OnlySwitched, Exclusive, Known, ReplicasOf;
      outcomes := [];
      Unchanged(settings, cluster.deployments);
      for i := 0 to |commands|
        invariant Safe() && (old(Trusted()) ==> Trusted()) && |outcomes| == i
        invariant OnlySwitched(settings, old(cluster.deployments), cluster.deployments)
        invariant old(journal).Some? ==> journal.Some? && SameSwitch(old(journal).value, journal.value)
        invariant old(journal).None? && settings.previous.Some? ==>
          ReplicasOf(old(cluster), settings.previous.value) ==
            if journal.Some? then journal.value.previousReplicas else ReplicasOf(cluster, settings.previous.value)
      {
        ghost var before := cluster;
        var o;
        match commands[i] {
          case Apply(digest) => o := Apply(digest);
          case Rollback => o := RollBack();
        }
        SwitchedTwice(settings, old(cluster.deployments), before.deployments, cluster.deployments);
        outcomes := outcomes + [o];
      }
    }
  }

  lemma Unchanged(s: Settings, ds: map<string, Deployment>)
    ensures OnlySwitched(s, ds, ds)
  {
  }
}
