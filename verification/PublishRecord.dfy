/** Publish records and their access rules (internal/driver/driver.go:1437-1443, 1612-1648 and 1686-1726). */
module PublishRecord {
  import opened Text
  import opened MountRecord

  datatype AccessMode = SingleNodeWriter | SingleNodeSingleWriter | SingleNodeMultiWriter | MultiNodeMultiWriter

  datatype PublishStatus = Pending | Published | Unpublishing

  datatype PublishState = PublishState(
    volume: VolumeID, stagingTarget: Target, target: Target, readonly: bool, mode: AccessMode, status: PublishStatus)

  /** A mount at a publish target: the driver's bind mount, or somebody else's. */
  datatype TargetMount = TargetMount(readonly: bool, ours: bool)

  type Publishes = map<Target, PublishState>
  type TargetMounts = map<Target, TargetMount>

  predicate MultiWriter(mode: AccessMode) {
    mode.SingleNodeMultiWriter? || mode.MultiNodeMultiWriter?
  }

  /** publishStateMatches: everything but the status. */
  predicate SamePublish(a: PublishState, b: PublishState) {
    a.(status := Pending) == b.(status := Pending)
  }

  /** validatePublishStatusTransition; None is the absent record. */
  predicate StatusTransition(from: Option<PublishStatus>, to: Option<PublishStatus>) {
    || (from, to) == (None, Some(Pending))
    || (from, to) == (Some(Pending), Some(Published))
    || (from, to) == (Some(Pending), Some(Unpublishing))
    || (from, to) == (Some(Published), Some(Unpublishing))
    || (from, to) == (Some(Unpublishing), None)
  }

  /** checkMultiTargetAccess. */
  predicate AccessAllowed(active: seq<PublishState>, mode: AccessMode) {
    active == [] || (MultiWriter(mode) && forall p | p in active :: p.mode == mode)
  }

  /** The targets that consume one staging mount, whatever their status. */
  function Consumers(publishes: Publishes, volume: VolumeID, stagingTarget: Target): set<Target> {
    set t | t in publishes && publishes[t].volume == volume && publishes[t].stagingTarget == stagingTarget
  }

  predicate Inventories(active: seq<PublishState>, publishes: Publishes, volume: VolumeID, stagingTarget: Target) {
    && (forall p | p in active :: p.target in Consumers(publishes, volume, stagingTarget) && publishes[p.target] == p)
    && (forall t | t in Consumers(publishes, volume, stagingTarget) :: publishes[t] in active)
  }

  // ---- The invariant of a node --------------------------------------------------------------------

  /** Consumers keep their mount. */
  predicate ConsumersServed(volume: VolumeID, record: Option<MountState>, publishes: Publishes) {
    forall t | t in publishes && publishes[t].volume == volume ::
      record.Some? && ServesConsumers(record.value) && record.value.stagingTarget == publishes[t].stagingTarget
  }

  /** Each record is kept under its own target, and every bind mount of the driver has one. */
  predicate BindsRecorded(publishes: Publishes, mounts: TargetMounts) {
    && (forall t | t in publishes :: publishes[t].target == t)
    && (forall t | t in mounts && mounts[t].ours :: t in publishes)
  }

  /** A published read-only record never labels a writable mount. */
  predicate ReadonlyHonest(publishes: Publishes, mounts: TargetMounts) {
    forall t | t in publishes && t in mounts && publishes[t].status.Published? && publishes[t].readonly ::
      mounts[t].readonly
  }

  /** Two consumers of one staging mount share one multi-writer mode. */
  predicate OneMode(publishes: Publishes) {
    forall t, u | t in publishes && u in publishes && t != u
      && publishes[t].volume == publishes[u].volume && publishes[t].stagingTarget == publishes[u].stagingTarget ::
      publishes[t].mode == publishes[u].mode && MultiWriter(publishes[t].mode)
  }

  predicate NodeConsistent(volume: VolumeID, record: Option<MountState>, publishes: Publishes, mounts: TargetMounts) {
    && ConsumersServed(volume, record, publishes)
    && BindsRecorded(publishes, mounts)
    && ReadonlyHonest(publishes, mounts)
    && OneMode(publishes)
  }

  /** The access check admits a new consumer exactly when the modes still agree with it. */
  lemma AccessAllowedIff(publishes: Publishes, p: PublishState, active: seq<PublishState>)
    requires OneMode(publishes) && p.target !in publishes
    requires forall t | t in publishes :: publishes[t].target == t
    requires Inventories(active, publishes, p.volume, p.stagingTarget)
    ensures AccessAllowed(active, p.mode) <==> OneMode(publishes[p.target := p])
  {
    var after := publishes[p.target := p];
    if AccessAllowed(active, p.mode) {
      forall t | t in Consumers(publishes, p.volume, p.stagingTarget)
        ensures publishes[t].mode == p.mode && MultiWriter(p.mode)
      {
        assert publishes[t] in active;
      }
      forall t, u | t in after && u in after && t != u
        && after[t].volume == after[u].volume && after[t].stagingTarget == after[u].stagingTarget
        ensures after[t].mode == after[u].mode && MultiWriter(after[t].mode)
      {
        if t == p.target {
          assert u in Consumers(publishes, p.volume, p.stagingTarget);
        } else if u == p.target {
          assert t in Consumers(publishes, p.volume, p.stagingTarget);
        }
      }
    }
    if OneMode(after) {
      forall q | q in active ensures q.mode == p.mode && MultiWriter(p.mode) {
        assert after[q.target] == q && after[p.target] == p;
      }
      assert active != [] ==> active[0] in active;
    }
  }

  /** A new pending record, admitted by the checks of a publish. */
  lemma PendingKeepsConsistent(
    volume: VolumeID, record: Option<MountState>, publishes: Publishes, mounts: TargetMounts, p: PublishState,
    active: seq<PublishState>
  )
    requires NodeConsistent(volume, record, publishes, mounts)
    requires p.target !in publishes && p.status.Pending? && p.volume == volume
    requires record.Some? && ServesConsumers(record.value) && record.value.stagingTarget == p.stagingTarget
    requires Inventories(active, publishes, volume, p.stagingTarget) && AccessAllowed(active, p.mode)
    ensures NodeConsistent(volume, record, publishes[p.target := p], mounts)
  {
    AccessAllowedIff(publishes, p, active);
  }

  /** Only the status of a record changes, and Published only over an honest mount. */
  lemma StatusKeepsConsistent(
    volume: VolumeID, record: Option<MountState>, publishes: Publishes, mounts: TargetMounts, p: PublishState
  )
    requires NodeConsistent(volume, record, publishes, mounts)
    requires p.target in publishes && SamePublish(publishes[p.target], p)
    requires p.status.Published? && p.readonly && p.target in mounts ==> mounts[p.target].readonly
    ensures NodeConsistent(volume, record, publishes[p.target := p], mounts)
  {
    assert OneMode(publishes[p.target := p]);
  }

  lemma RemovalKeepsConsistent(
    volume: VolumeID, record: Option<MountState>, publishes: Publishes, mounts: TargetMounts, target: Target
  )
    requires NodeConsistent(volume, record, publishes, mounts)
    requires target in mounts ==> !mounts[target].ours
    ensures NodeConsistent(volume, record, publishes - {target}, mounts)
  {
  }

  /** A change of the durable record that keeps its consumers, or that has none to keep. */
  lemma RecordKeepsConsistent(
    volume: VolumeID, before: Option<MountState>, after: Option<MountState>, publishes: Publishes, mounts: TargetMounts
  )
    requires NodeConsistent(volume, before, publishes, mounts)
    requires KeepsConsumers(before, after) ||
      (before.Some? && Consumers(publishes, volume, before.value.stagingTarget) == {})
    ensures NodeConsistent(volume, after, publishes, mounts)
  {
    if before.Some? && Consumers(publishes, volume, before.value.stagingTarget) == {} {
      forall t | t in publishes ensures publishes[t].volume != volume {
        assert t !in Consumers(publishes, volume, before.value.stagingTarget);
      }
    }
  }
}
