/**
 The records of the offline storage-shrink protocol: the saved operation, the
 workspace row it updates, and the names of the cluster objects it acts on.
 Object UIDs, persistent-volume names and CSI handles are numbers that the
 cluster never hands out twice; claim names are structured, because the names the
 control plane derives (`<default>`, `shrink-<operation>-<role>`) never coincide.
 */
module ShrinkTypes {
  import opened Options

  const GIB: nat := 0x4000_0000
  const U64_LIMIT: nat := 0x1_0000_0000_0000_0000
  const I64_MAX: nat := 0x7fff_ffff_ffff_ffff

  type u64 = n: nat | n < U64_LIMIT

  datatype Role = Home | Temporary
  datatype Stage = Preflight | Measure | Copy | Verify

  datatype Phase =
    | Queued | Stopping | Measuring | Copying | Verifying | Switching | Resuming
    | RollingBack | Completed | Failed | Reclaiming | Reclaimed
  {
    predicate Active() { !(Completed? || Failed? || Reclaimed?) }
  }

  /** What a caller asks for, and what it consents to. */
  datatype Request = Request(home: Option<u64>, temporary: Option<u64>, reclaimSource: bool)

  datatype ClaimName =
    | DefaultClaim(role: Role)
    | NamedClaim(n: nat)
    | ShrinkClaim(op: nat, role: Role)

  datatype HelperName = HelperName(op: nat, role: Role, stage: Stage)

  datatype Binding = Binding(name: ClaimName, uid: nat, gib: u64)
  {
    predicate IsValid() { gib > 0 && gib * GIB <= I64_MAX }
  }

  datatype Driver = Longhorn | OtherDriver(n: nat)

  datatype Identity = Identity(
    pv: nat, pvUid: nat, driver: Driver, handle: nat, storageClass: nat, longhorn: Option<nat>)

  datatype Usage = Usage(bytes: u64, inodes: u64)

  datatype Volume = Volume(
    target: Option<u64>,
    source: Option<Binding>,
    destination: Option<Binding>,
    used: Option<Usage>,
    verified: bool,
    sourceVolume: Option<Identity>,
    destinationVolume: Option<Identity>)

  datatype Operation = Operation(
    id: nat,
    phase: Phase,
    error: bool,
    home: Volume,
    temporary: Volume,
    resume: bool,
    reclaimSource: bool,
    updatedAt: int,
    originalHome: u64,
    originalTemporary: u64,
    switched: bool,
    sourcesRetained: bool,
    reclaimable: bool,
    helperUids: map<HelperName, nat>)
  {
    function Vol(r: Role): Volume { if r.Home? then home else temporary }

    function Original(r: Role): u64 { if r.Home? then originalHome else originalTemporary }

    function WithVol(r: Role, v: Volume): (o: Operation)
      ensures o.Vol(r) == v && forall q: Role :: q != r ==> o.Vol(q) == Vol(q)
    {
      if r.Home? then this.(home := v) else this.(temporary := v)
    }
  }

  datatype WorkspaceState =
    | Provisioning | Ready | WsStopping | Stopped | Starting | Restarting | WsFailed

  datatype Workspace = Workspace(
    state: WorkspaceState,
    home: Option<Binding>,
    scratch: Option<Binding>,
    diskGib: u64,
    temporaryGib: u64)
  {
    function Bound(r: Role): Option<Binding> { if r.Home? then home else scratch }

    /** The claim a Pod of this workspace mounts for a role. */
    function Eff(r: Role): ClaimName {
      match Bound(r)
      case Some(b) => b.name
      case None => DefaultClaim(r)
    }
  }

  /** How a save also changes the workspace row, in the same transaction. */
  datatype Update = NoUpdate | ToStopping | ToStopped | Switch | ToStarting | Rollback
}
