/**
 The cluster objects the shrink coordinator reads and changes, and the identity
 checks it makes before it trusts one of them.
 */
module ShrinkCluster {
  import opened Options
  import opened ShrinkTypes

  /** The contents of a file system, as a checksum comparison sees them. */
  type Data = seq<nat>

  /** A claim is Bound when it names a persistent volume. */
  datatype Claim = Claim(
    uid: nat,
    ours: bool,
    operation: Option<nat>,
    request: Option<nat>,
    capacity: Option<nat>,
    storageClass: nat,
    volume: Option<nat>,
    gcOwned: bool,
    deleting: bool)

  datatype Pv = Pv(
    uid: nat,
    ref: ClaimName,
    refUid: nat,
    driver: Driver,
    handle: nat,
    storageClass: nat,
    policyDelete: bool,
    released: bool,
    deleting: bool,
    data: Data)

  datatype PodPhase = Running | Succeeded | PodFailed

  /** A helper Pod; `source` is always mounted read-only, `dest` read-only when verifying. */
  datatype Helper = Helper(
    uid: nat,
    source: Option<ClaimName>,
    dest: Option<ClaimName>,
    phase: PodPhase,
    usage: Usage,
    deleting: bool)

  /** The workspace's own Pod, which writes both of the claims it mounts. */
  datatype WorkPod = WorkPod(home: ClaimName, scratch: ClaimName)
  {
    function Mount(r: Role): ClaimName { if r.Home? then home else scratch }
  }

  /** `templated` are the claims whose garbage-collection owner the controller may set. */
  datatype SetSpec = SetSpec(
    replicas: nat, retain: bool, home: ClaimName, scratch: ClaimName, templated: set<ClaimName>)

  datatype Workload = Workload(
    spec: SetSpec, generation: nat, observed: SetSpec, observedGeneration: nat)

  /** `validate_pv_identity`. */
  predicate PvMatches(n: nat, pv: Pv, b: Binding, i: Identity) {
    && n == i.pv
    && pv.uid == i.pvUid
    && pv.ref == b.name
    && pv.refUid == b.uid
    && pv.driver == i.driver
    && pv.handle == i.handle
    && pv.storageClass == i.storageClass
  }

  /** `shrink_claim`: the claim is still the one recorded, and unchanged in size. */
  predicate ClaimMatches(claim: Claim, b: Binding, bound: bool) {
    && b.IsValid()
    && claim.ours && !claim.deleting
    && claim.uid == b.uid
    && claim.request == Some(b.gib * GIB)
    && (bound ==> claim.volume.Some? && claim.capacity == Some(b.gib * GIB))
  }
}
