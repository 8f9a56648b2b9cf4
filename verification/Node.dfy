/**
  * The node service: its RPCs on one volume, one at a time (internal/driver/driver.go:630-1204,
  * node_recovery.go:84-251).
  */
module Node {
  import opened Text
  import opened MountRecord
  import opened LaunchRequest
  import opened World
  import opened Host
  import opened PublishRecord
  import Ownership
  import Staging

  datatype Reply = Done | Refused

  class Node {
    const host: Host
    const volume: VolumeID
    var publishes: Publishes
    var mounts: TargetMounts

    constructor (host: Host, volume: VolumeID, publishes: Publishes, mounts: TargetMounts)
      requires host.Inv() && NodeConsistent(volume, host.record, publishes, mounts)
      ensures Inv() && this.host == host && this.volume == volume
      ensures this.publishes == publishes && this.mounts == mounts
    {
      this.host, this.volume := host, volume;
      this.publishes, this.mounts := publishes, mounts;
    }

    /** Holds between any two steps of any RPC. */
    ghost predicate Inv()
      reads this, host, host.runtime
    {
      host.Inv() && NodeConsistent(volume, host.record, publishes, mounts)
    }

    // ---- Storage and mounts of publish targets -----------------------------------------------------

    /** Mounts at targets may vanish, and others may mount where the driver has no record. */
    method Disturb()
      requires Inv()
      modifies this`mounts
      ensures Inv()
      ensures forall t | t in mounts && t in publishes :: t in old(mounts) && mounts[t] == old(mounts)[t]
      ensures forall t | t in mounts && mounts[t].ours :: t in old(mounts) && mounts[t] == old(mounts)[t]
      ensures host.settled ==> mounts == old(mounts)
    {
      hide Host.Inv, ConsumersServed, OneMode;
      var gone: set<Target> := *;
      var foreign: TargetMounts := *;
      var kept := map t | t in mounts && t !in gone :: mounts[t];
      var added := map t | t in foreign && t !in publishes && t !in kept && !foreign[t].ours :: foreign[t];
      if !host.settled {
        mounts := kept + added;
      }
    }

    /** readPublishState. */
    method ReadPublish(target: Target) returns (answer: Answer<Option<PublishState>>)
      ensures answer.Known? ==> answer.value == if target in publishes then Some(publishes[target]) else None
      ensures host.settled ==> answer.Known?
    {
      var fails: bool := *;
      answer := if fails && !host.settled then Unknown
                else Known(if target in publishes then Some(publishes[target]) else None);
    }

    /** hasActivePublishTargets: one unreadable record makes the whole scan fail. */
    method ScanConsumers(stagingTarget: Target) returns (active: Answer<seq<PublishState>>)
      requires forall t | t in publishes :: publishes[t].target == t
      ensures active.Known? ==> Inventories(active.value, publishes, volume, stagingTarget)
      ensures host.settled ==> active.Known?
    {
      var entries := publishes.Keys;
      var found: seq<PublishState> := [];
      while entries != {}
        invariant entries <= publishes.Keys
        invariant forall p | p in found ::
          p.target in Consumers(publishes, volume, stagingTarget) - entries && publishes[p.target] == p
        invariant forall t | t in Consumers(publishes, volume, stagingTarget) :: t in entries || publishes[t] in found
        decreases |entries|
      {
        var entry :| entry in entries;
        var unreadable: bool := *;
        if unreadable && !host.settled {
          return Unknown;
        }
        if publishes[entry].volume == volume && publishes[entry].stagingTarget == stagingTarget {
          found := found + [publishes[entry]];
        }
        entries := entries - {entry};
      }
      active := Known(found);
    }

    function StatusAt(target: Target): Option<PublishStatus>
      reads this
    {
      if target in publishes then Some(publishes[target].status) else None
    }

    /** writePublishState: atomic, but a failure may be reported after it took effect. */
    method WritePublish(p: PublishState) returns (ok: bool)
      requires Inv() && NodeConsistent(volume, host.record, publishes[p.target := p], mounts)
      requires StatusTransition(StatusAt(p.target), Some(p.status))
      modifies this`publishes
      ensures Inv() && (publishes == old(publishes) || publishes == old(publishes)[p.target := p])
      ensures ok ==> publishes == old(publishes)[p.target := p]
      ensures host.settled ==> ok
    {
      var effective, reported: bool := *, *;
      if effective || host.settled {
        publishes := publishes[p.target := p];
      }
      ok := (effective && reported) || host.settled;
    }

    /** removePublishState. */
    method RemovePublish(target: Target) returns (ok: bool)
      requires Inv() && (target in mounts ==> !mounts[target].ours)
      requires StatusTransition(StatusAt(target), None)
      modifies this`publishes
      ensures Inv() && (publishes == old(publishes) || publishes == old(publishes) - {target})
      ensures ok ==> target !in publishes
      ensures host.settled ==> ok
    {
      RemovalKeepsConsistent(volume, host.record, publishes, mounts, target);
      var effective, reported: bool := *, *;
      if effective || host.settled {
        publishes := publishes - {target};
      }
      ok := (effective && reported) || host.settled;
    }

    /** IsMountPoint and ObserveMountPoint of a publish target. */
    method ObserveTarget(target: Target) returns (answer: Answer<Option<bool>>)
      requires Inv()
      modifies this`mounts
      ensures Inv()
      ensures answer.Known? ==> answer.value == if target in mounts then Some(mounts[target].readonly) else None
      ensures forall t | t in mounts && t in publishes :: t in old(mounts) && mounts[t] == old(mounts)[t]
      ensures host.settled ==> answer.Known? && mounts == old(mounts)
    {
      Disturb();
      var fails: bool := *;
      answer := if fails && !host.settled then Unknown
                else Known(if target in mounts then Some(mounts[target].readonly) else None);
    }

    /**
      * bindMount: a read-only bind is a writable one that is remounted; it may stop in between, and the
      * unmount that follows a failed remount may fail as well.
      */
    method Bind(target: Target, readonly: bool) returns (ok: bool)
      requires Inv() && target in publishes && publishes[target].status.Pending?
      modifies this`mounts
      ensures Inv() && (ok ==> target in mounts && mounts[target] == TargetMount(readonly, true))
      ensures host.settled ==> ok
    {
      hide Host.Inv, ConsumersServed, OneMode;
      Disturb();
      var bound, remounted, unbound, reported: bool := *, *, *, *;
      ok := false;
      if bound || host.settled {
        mounts := mounts[target := TargetMount(false, true)];
        if readonly {
          if remounted || host.settled {
            mounts := mounts[target := TargetMount(true, true)];
          } else if unbound {
            mounts := mounts - {target};
          }
        }
        ok := (reported && (readonly ==> remounted)) || host.settled;
      }
    }

    /** unmountPath. */
    method UnmountTarget(target: Target) returns (ok: bool)
      requires Inv()
      modifies this`mounts
      ensures Inv()
      ensures host.settled ==> ok && target !in mounts
    {
      hide Host.Inv, ConsumersServed, OneMode;
      Disturb();
      var effective: bool := *;
      if effective || host.settled {
        mounts := mounts - {target};
      }
      ok := *;
      ok := ok || host.settled;
    }

    // ---- Publishing ------------------------------------------------------------------------------

    /** The durable record is active at the staging target and its mount is healthy. */
    predicate HealthyAt(stagingTarget: Target)
      reads this, host, host.runtime
    {
      && host.record.Some? && ValidMountState(host.record.value) && host.record.value.volumeID == volume
      && Staging.HealthyMount(host.View(), host.record.value, stagingTarget)
    }

    /** The mode of a new consumer agrees with those of the others. */
    predicate ModeAgrees(p: PublishState)
      reads this
    {
      forall t | t in Consumers(publishes, volume, p.stagingTarget) ::
        publishes[t].mode == p.mode && MultiWriter(p.mode)
    }

    function MountAt(target: Target): Option<bool>
      reads this
    {
      if target in mounts then Some(mounts[target].readonly) else None
    }

    /** By its status, a record can be brought up over this mount. */
    predicate MayBringUp(p: PublishState, mounted: Option<bool>)
      reads this
    {
      && !p.status.Unpublishing?
      && (p.status.Published? ==> mounted.Some?)
      && (mounted.Some? && p.readonly ==> mounted.value)
    }

    /** Neither the record nor the mount at the target stands in the way of a publish. */
    predicate MayPublish(requested: PublishState)
      reads this
    {
      if requested.target in publishes then
        && SamePublish(publishes[requested.target], requested)
        && MayBringUp(publishes[requested.target], MountAt(requested.target))
      else
        requested.target !in mounts && ModeAgrees(requested)
    }

    /**
      * What a successful publish leaves: the requested record, published, and no writable mount under a
      * read-only one.
      */
    predicate IsPublished(p: PublishState)
      reads this
    {
      && p.target in publishes && publishes[p.target] == p.(status := Published)
      && (p.readonly && p.target in mounts ==> mounts[p.target].readonly)
    }

    /**
      * NodePublishVolume: only behind a healthy active mount at the staging target, and never for a mode
      * that disagrees with the other consumers. A retry finishes what an interrupted call has begun: on a
      * settled node it succeeds unless the record or the mount at the target stands in the way.
      */
    method PublishVolume(stagingTarget: Target, target: Target, readonly: bool, mode: AccessMode, acceptable: bool)
      returns (reply: Reply)
      requires Inv()
      modifies this`publishes, this`mounts, host.runtime, host`past
      ensures Inv() && host.record == old(host.record)
      ensures reply.Done? ==>
        && Staging.ActiveAt(host.record, stagingTarget)
        && IsPublished(PublishState(volume, stagingTarget, target, readonly, mode, Pending))
      ensures host.settled && acceptable && old(HealthyAt(stagingTarget)) ==>
        (old(MayPublish(PublishState(volume, stagingTarget, target, readonly, mode, Pending))) ==> reply.Done?)
    {
      hide Host.Inv, NodeConsistent, IsPublished;
      reply := Refused;
      var healthy := StagingIsHealthy(stagingTarget);
      if acceptable && healthy {
        reply := PublishHealthy(PublishState(volume, stagingTarget, target, readonly, mode, Pending));
      }
    }

    /** The durable record is active at the staging target, and its mount is locally healthy (driver.go:1009-1015). */
    method StagingIsHealthy(stagingTarget: Target) returns (healthy: bool)
      requires Inv()
      modifies host.runtime, host`past
      ensures Inv() && host.record == old(host.record)
      ensures healthy ==> Staging.ActiveAt(host.record, stagingTarget)
      ensures host.settled && old(HealthyAt(stagingTarget)) ==> healthy
    {
      hide Host.Inv, NodeConsistent, Evolves, Ownership.OnlyAccepts, Staging.ServedAt, ValidMountState;
      healthy := false;
      var answer := host.ReadRecord();
      if answer.Known? && answer.value.Some? && answer.value.value.volumeID == volume {
        healthy := Staging.VerifyActiveLocally(host, answer.value.value, stagingTarget);
      }
    }

    /** The part behind the health check (driver.go:1017-1127). */
    method PublishHealthy(requested: PublishState) returns (reply: Reply)
      requires Inv() && requested.status.Pending? && requested.volume == volume
      requires Staging.ActiveAt(host.record, requested.stagingTarget)
      modifies this`publishes, this`mounts
      ensures Inv() && (reply.Done? ==> IsPublished(requested))
      ensures host.settled && old(MayPublish(requested)) ==> reply.Done?
    {
      hide Host.Inv, ConsumersServed, OneMode;
      reply := Refused;
      var existing := ReadPublish(requested.target);
      var mounted := ObserveTarget(requested.target);
      if existing.Known? && mounted.Known? {
        if existing.value.None? {
          if mounted.value.None? {
            var written := Admit(requested);
            if written {
              reply := BringUp(requested, None);
            }
          }
        } else if SamePublish(existing.value.value, requested) {
          reply := BringUp(existing.value.value, mounted.value);
        }
      }
    }

    lemma AgreeingModeIsAllowed(active: seq<PublishState>, p: PublishState)
      requires ModeAgrees(p) && Inventories(active, publishes, volume, p.stagingTarget)
      ensures AccessAllowed(active, p.mode)
    {
      assert active != [] ==> active[0] in active;
    }

    /** The first record of a target: scan the consumers, check the mode, and write it pending (driver.go:1053-1074). */
    method Admit(requested: PublishState) returns (written: bool)
      requires Inv() && requested.status.Pending? && requested.volume == volume && requested.target !in publishes
      requires Staging.ActiveAt(host.record, requested.stagingTarget)
      modifies this`publishes
      ensures Inv() && (written ==> requested.target in publishes && publishes[requested.target] == requested)
      ensures host.settled && old(ModeAgrees(requested)) ==> written
    {
      hide Host.Inv, ConsumersServed, OneMode;
      written := false;
      var active := ScanConsumers(requested.stagingTarget);
      if active.Known? && ModeAgrees(requested) {
        AgreeingModeIsAllowed(active.value, requested);
      }
      if active.Known? && AccessAllowed(active.value, requested.mode) {
        PendingKeepsConsistent(volume, host.record, publishes, mounts, requested, active.value);
        written := WritePublish(requested);
      }
    }

    /** By the status of the record (driver.go:1077-1126). */
    method BringUp(p: PublishState, mounted: Option<bool>) returns (reply: Reply)
      requires Inv() && p.target in publishes && publishes[p.target] == p
      requires mounted.Some? && p.target in mounts ==> mounts[p.target].readonly == mounted.value
      modifies this`publishes, this`mounts
      ensures Inv() && (reply.Done? ==> IsPublished(p))
      ensures host.settled && old(MayBringUp(p, mounted)) ==> reply.Done?
    {
      hide Host.Inv, ConsumersServed, OneMode;
      reply := Refused;
      var honest := mounted.Some? ==> p.readonly ==> mounted.value;
      var again := ReadPublish(p.target);
      match p.status {
        case Pending =>
          var up := false;
          if mounted.Some? {
            up := again == Known(Some(p)) && honest;
          } else {
            up := Bind(p.target, p.readonly);
          }
          if up {
            StatusKeepsConsistent(volume, host.record, publishes, mounts, p.(status := Published));
            var written := WritePublish(p.(status := Published));
            reply := if written then Done else Refused;
          }
        case Published =>
          if mounted.Some? && again == Known(Some(p)) && honest {
            reply := Done;
          }
        case Unpublishing =>
      }
    }

    // ---- Unpublishing ------------------------------------------------------------------------------

    predicate IsUnpublished(target: Target)
      reads this
    {
      target !in publishes && (target in mounts ==> !mounts[target].ours)
    }

    /** The target belongs to this volume, or nothing is there. */
    predicate MayUnpublish(target: Target)
      reads this
    {
      if target in publishes then publishes[target].volume == volume else target !in mounts
    }

    /** NodeUnpublishVolume: the record says unpublishing before the mount goes, and goes itself last of all. */
    method UnpublishVolume(target: Target) returns (reply: Reply)
      requires Inv()
      modifies this`publishes, this`mounts
      ensures Inv() && (reply.Done? ==> IsUnpublished(target))
      ensures host.settled && old(MayUnpublish(target)) ==> reply.Done?
    {
      hide Host.Inv, ConsumersServed, OneMode;
      reply := Refused;
      var existing := ReadPublish(target);
      if existing == Known(None) {
        var mounted := ObserveTarget(target);
        reply := if mounted == Known(None) then Done else Refused;
      } else if existing.Known? && existing.value.value.volume == volume {
        var p := existing.value.value;
        var marked := true;
        if !p.status.Unpublishing? {
          StatusKeepsConsistent(volume, host.record, publishes, mounts, p.(status := Unpublishing));
          marked := WritePublish(p.(status := Unpublishing));
        }
        if marked {
          reply := CompleteUnpublish(target);
        }
      }
    }

    /** Unmount what is mounted, and remove the record (driver.go:1178-1202). */
    method CompleteUnpublish(target: Target) returns (reply: Reply)
      requires Inv() && target in publishes && publishes[target].status.Unpublishing?
      modifies this`publishes, this`mounts
      ensures Inv() && (reply.Done? ==> IsUnpublished(target))
      ensures host.settled ==> reply.Done?
    {
      hide Host.Inv, ConsumersServed, OneMode, ReadonlyHonest;
      reply := Refused;
      var mounted := ObserveTarget(target);
      if mounted.Known? && mounted.value.Some? {
        var capable := host.Gate();
        if !capable {
          return Refused;
        }
        var unmounted := UnmountTarget(target);
        mounted := ObserveTarget(target);
        if !unmounted {
          return Refused;
        }
      }
      if mounted == Known(None) {
        var removed := RemovePublish(target);
        reply := if removed then Done else Refused;
      }
    }

    // ---- The other RPCs ------------------------------------------------------------------------------

    method CountConsumers(stagingTarget: Target) returns (count: Answer<nat>)
      requires Inv()
      ensures count == Known(0) ==> Consumers(publishes, volume, stagingTarget) == {}
      ensures host.settled && Consumers(publishes, volume, stagingTarget) == {} ==> count == Known(0)
    {
      hide Host.Inv, ConsumersServed, OneMode, ReadonlyHonest;
      var active := ScanConsumers(stagingTarget);
      assert active.Known? && active.value != [] ==> active.value[0] in active.value;
      count := if active.Known? then Known(|active.value|) else Unknown;
    }

    /** NodeStageVolume: consumers of another staging target are counted before its record may be stopped. */
    method StageVolume(request: LaunchRequest) returns (reply: Reply)
      requires Inv() && request.reason == Stage
      modifies host, host.runtime
      ensures Inv()
      ensures reply.Done? ==> Staging.ActiveAt(host.record, request.stagingTarget)
      ensures host.settled && Staging.Stageable(request) ==>
        Staging.Stages(old(host.View()), request, host.prompt, reply.Done?, old(host.past), host.past)
    {
      hide SafeActs, OwnerMissed, Host.Inv, NodeConsistent, ValidMountState, ServesConsumers, Staging.Stageable,
        Staging.Stages;
      ghost var before := host.record;
      var counted: Answer<nat> := Unknown;
      var answer := host.ReadRecord();
      if answer.Known? && answer.value.Some? {
        counted := CountConsumers(answer.value.value.stagingTarget);
      }
      var ok := Staging.StageVolume(host, request, counted);
      RecordKeepsConsistent(volume, before, host.record, publishes, mounts);
      reply := if ok then Done else Refused;
    }

    /** NodeUnstageVolume. */
    method UnstageVolume(stagingTarget: Target) returns (reply: Reply)
      requires Inv()
      modifies host.runtime, host`record, host`past
      ensures Inv()
      ensures reply.Done? ==> host.record.None? && !Running(host.runtime.unit) && NoSupervisor(host.View())
      ensures reply.Done? && (host.settled || Staging.UnstagesSurely(old(host.View()))) ==>
        stagingTarget !in host.runtime.mounts
      ensures Consumers(publishes, volume, stagingTarget) != {} ==>
        reply.Refused? && host.record == old(host.record) && host.past == old(host.past)
      ensures host.settled && Consumers(publishes, volume, stagingTarget) == {} ==>
        (old(Staging.Unstageable(host.View(), volume, stagingTarget)) ==>
           || reply.Done?
           || (&& Running(old(host.runtime.unit)) && !Running(host.runtime.unit)
               && Staging.Unstageable(host.View(), volume, stagingTarget)))
    {
      hide Host.Inv, NodeConsistent, NoSupervisor, Staging.Unstageable, Running;
      ghost var before := host.record;
      var counted := CountConsumers(stagingTarget);
      var ok := Staging.UnstageVolume(host, volume, stagingTarget, counted);
      KeepsItself(before);
      RecordKeepsConsistent(volume, before, host.record, publishes, mounts);
      reply := if ok then Done else Refused;
    }

    /** recoverOneNodeMount. */
    method Recover(args: seq<string>, credentials: Option<Credentials>)
      requires Inv()
      modifies host, host.runtime
      ensures Inv()
      ensures host.settled && old(host.record).Some? && ValidMountState(old(host.record).value) ==>
        Staging.Boots(
          old(host.View()), old(host.record).value, args, credentials, host.View(), old(host.past), host.past)
    {
      hide Host.Inv, NodeConsistent, ValidMountState, Staging.Boots, SafeActs, OwnerMissed;
      ghost var before := host.record;
      Staging.RecoverOne(host, args, credentials);
      RecordKeepsConsistent(volume, before, host.record, publishes, mounts);
    }

    /**
      * Any run of calls, each of which may fail or be cut short at any step. Throughout, a consumer has its
      * mount's record, every bind mount of the driver has a publish record, no read-only record labels a
      * writable mount, consumers share one mode, and every kill named an identity that an ownership check had
      * accepted. Every start and every deletion is safe in the sense of SafeStart and SafeDeletion until an
      * owner is missed: no service starts beside another supervisor and no record goes before its own, unless
      * the unit ran when that pass read the mount; and the target is unmounted then, unless something of the
      * volume was alive.
      */
    method Run(calls: seq<Call>)
      requires Inv()
      modifies this`publishes, this`mounts, host, host.runtime
      ensures Inv() && NodeConsistent(volume, host.record, publishes, mounts)
      ensures SafeKills(host.View(), host.past) && SafeActs(host.past)
      ensures Consistent(host.View()) && (host.lost ==> OwnerMissed(host.past))
    {
      hide NodeConsistent, SafeActs, SafeKills, OwnerMissed, Consistent;
      for i := 0 to |calls|
        invariant Inv()
      {
        Disturb();
        Perform(calls[i]);
      }
    }

    method Perform(call: Call)
      requires Inv()
      modifies this`publishes, this`mounts, host, host.runtime
      ensures Inv()
    {
      hide Host.Inv, NodeConsistent, SafeActs, OwnerMissed;
      match call {
        case StageCall(request) =>
          if request.reason == Stage {
            var reply := StageVolume(request);
          }
        case UnstageCall(stagingTarget) => var reply := UnstageVolume(stagingTarget);
        case PublishCall(stagingTarget, target, readonly, mode) =>
          var acceptable: bool := *;
          var reply := PublishVolume(stagingTarget, target, readonly, mode, acceptable);
        case UnpublishCall(target) => var reply := UnpublishVolume(target);
        case RecoverCall(args, credentials) => Recover(args, credentials);
      }
    }
  }

  datatype Call =
    | StageCall(request: LaunchRequest)
    | UnstageCall(stagingTarget: Target)
    | PublishCall(stagingTarget: Target, target: Target, readonly: bool, mode: AccessMode)
    | UnpublishCall(target: Target)
    | RecoverCall(args: seq<string>, credentials: Option<Credentials>)

  lemma KeepsItself(record: Option<MountState>)
    ensures KeepsConsumers(record, record)
  {
  }
}
