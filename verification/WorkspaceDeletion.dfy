/**
 Staged deletion of a workspace in a cluster shared with its siblings. A call
 looks for the workspace's objects stage by stage, asks for the deletion of what
 it finds, and goes on to the next stage only when the earlier ones are empty.
 Between API calls Kubernetes finishes deletions, Pods go away, and siblings do as
 they like with everything that is not this workspace's.
 */
module WorkspaceDeletion {
  import opened Options

  type Name = nat

  datatype Kind =
    | RoleBinding | Ingress | Filter | Policy | Service | StatefulSet | ConfigMap | Secret | Account | Claim

  datatype Key = Key(kind: Kind, name: Name)

  /** An object's metadata; `mapping` is the presence of the port-mapping label. */
  datatype Object = Object(
    installation: Option<nat>, workspace: Option<nat>, mapping: bool, uid: Option<nat>, deleting: bool)

  datatype Pod = Pod(meta: Object, mounts: set<Name>)

  datatype Config = Config(
    installation: nat, workspace: nat,
    binding: Name, webShellIngress: Name, webShellFilter: Name, sshService: Name, service: Name,
    statefulSet: Name, networkPolicy: Name, configMaps: seq<Name>, secrets: seq<Name>, account: Name,
    pod: Name, homeClaim: Name, scratchClaim: Name,
    homeBound: bool, scratchBound: bool, mtls: bool, mappingDomain: bool)

  /** Every UID below `issued` has been handed out, and none is handed out twice. */
  datatype View = View(
    objects: map<Key, Object>, pods: map<Name, Pod>, namespace: Option<Object>, issued: nat)

  datatype Progress = DeletionRequested | Terminating | Gone

  /** `ownership::verify`: both labels are required. */
  predicate Owned(c: Config, o: Object) {
    o.installation == Some(c.installation) && o.workspace == Some(c.workspace)
  }

  /** What the port-mapping label selector lists. */
  predicate Selected(c: Config, o: Object) { Owned(c, o) && o.mapping }

  /** The objects a call looks for, by name or by label. */
  predicate Mine(c: Config, k: Key, o: Object) {
    match k.kind
    case RoleBinding => k.name == c.binding
    case Ingress => k.name == c.webShellIngress || Selected(c, o)
    case Filter => c.mtls && (k.name == c.webShellFilter || (c.mappingDomain && Selected(c, o)))
    case Policy => k.name == c.networkPolicy || Selected(c, o)
    case Service => k.name == c.sshService || k.name == c.service || Selected(c, o)
    case StatefulSet => k.name == c.statefulSet
    case ConfigMap => k.name in c.configMaps
    case Secret => k.name in c.secrets
    case Account => k.name == c.account
    case Claim => (k.name == c.homeClaim && !c.homeBound) || (k.name == c.scratchClaim && !c.scratchBound)
  }

  /** Routes go before what serves them, the workload before what it mounts, claims last. */
  function Stage(c: Config, k: Key, o: Object): nat {
    match k.kind
    case RoleBinding => 0
    case Ingress => 1
    case Filter => 2
    case Service => 2
    case Policy => if Selected(c, o) then 2 else 4
    case StatefulSet => 3
    case ConfigMap => 4
    case Secret => 4
    case Account => 4
    case Claim => 5
  }

  /** Without a namespace only cluster-wide and gateway objects can be left. */
  predicate Relevant(namespaced: bool, k: Key) { namespaced || k.kind in {RoleBinding, Filter} }

  /** Nothing the call looks for is left below stage `n`. */
  ghost predicate Cleared(c: Config, s: View, n: nat, namespaced: bool) {
    forall k :: k in s.objects && Relevant(namespaced, k) && Mine(c, k, s.objects[k]) ==>
      Stage(c, k, s.objects[k]) >= n
  }

  predicate Blocks(c: Config, name: Name, p: Pod) {
    || name == c.pod
    || (!c.homeBound && c.homeClaim in p.mounts)
    || (!c.scratchBound && c.scratchClaim in p.mounts)
  }

  ghost predicate NoPods(c: Config, s: View) {
    forall p :: p in s.pods ==> !Blocks(c, p, s.pods[p])
  }

  ghost predicate Nothing(c: Config, s: View, namespaced: bool) {
    (forall k :: k in s.objects && Relevant(namespaced, k) ==> !Mine(c, k, s.objects[k]))
    && (namespaced ==> NoPods(c, s))
  }

  /** One deletion that was asked for, and the cluster at that moment. */
  datatype Entry = Entry(key: Key, at: View, namespaced: bool)

  ghost predicate Allowed(c: Config, e: Entry) {
    && e.key in e.at.objects
    && var o := e.at.objects[e.key];
       && Owned(c, o) && !o.deleting && o.uid.Some?
       && Mine(c, e.key, o) && Relevant(e.namespaced, e.key)
       && Cleared(c, e.at, Stage(c, e.key, o), e.namespaced)
       && (Stage(c, e.key, o) >= 4 ==> NoPods(c, e.at))
  }

  predicate WellFormed(s: View) {
    forall k :: k in s.objects && s.objects[k].uid.Some? ==> s.objects[k].uid.value < s.issued
  }

  /** An object that is still there under an old UID is the same object, with the same labels. */
  predicate Traces(s: View, s': View) {
    && s.issued <= s'.issued
    && (forall k :: k in s'.objects && s'.objects[k].uid.Some? && s'.objects[k].uid.value < s.issued ==>
          k in s.objects && s'.objects[k] == s.objects[k].(deleting := s'.objects[k].deleting))
  }

  /** This workspace's objects and Pods only ever go away or start going away. */
  predicate Less(c: Config, s: View, s': View) {
    && (forall k :: k in s'.objects && Mine(c, k, s'.objects[k]) ==>
          && k in s.objects
          && s'.objects[k] == s.objects[k].(deleting := s'.objects[k].deleting)
          && (s.objects[k].deleting ==> s'.objects[k].deleting))
    && (forall p :: p in s'.pods && Blocks(c, p, s'.pods[p]) ==> p in s.pods && s'.pods[p] == s.pods[p])
    && (s'.namespace.Some? ==> s'.namespace == s.namespace)
    && Traces(s, s')
  }

  /** Others act; nobody else asks for deletions of this workspace's objects. */
  predicate Settles(c: Config, s: View, s': View) {
    && Less(c, s, s') && WellFormed(s')
    && (forall k :: k in s'.objects && Mine(c, k, s'.objects[k]) ==> s'.objects[k] == s.objects[k])
  }

  lemma LessTrans(c: Config, s: View, t: View, u: View)
    requires Less(c, s, t) && Less(c, t, u)
    ensures Less(c, s, u)
  {
    assert Traces(s, u);
    forall k | k in u.objects && Mine(c, k, u.objects[k])
      ensures k in s.objects && u.objects[k] == s.objects[k].(deleting := u.objects[k].deleting)
      ensures s.objects[k].deleting ==> u.objects[k].deleting
    {
      SameMine(c, k, t.objects[k], u.objects[k]);
    }
  }

  /** Which objects are looked for, and at which stage, does not depend on their deletion. */
  lemma SameMine(c: Config, k: Key, o: Object, o': Object)
    requires o' == o.(deleting := o'.deleting)
    ensures Mine(c, k, o') == Mine(c, k, o) && Stage(c, k, o') == Stage(c, k, o)
    ensures Selected(c, o') == Selected(c, o) && Owned(c, o') == Owned(c, o)
  {
  }

  lemma ClearedStays(c: Config, s: View, s': View, n: nat, namespaced: bool)
    requires Less(c, s, s') && Cleared(c, s, n, namespaced)
    ensures Cleared(c, s', n, namespaced)
  {
    forall k | k in s'.objects && Relevant(namespaced, k) && Mine(c, k, s'.objects[k])
      ensures Stage(c, k, s'.objects[k]) >= n
    {
      SameMine(c, k, s.objects[k], s'.objects[k]);
    }
  }

  // -------------------------------------------------------------------- how much is left

  ghost function Left(c: Config, s: View): set<Key> {
    set k | k in s.objects && Mine(c, k, s.objects[k])
  }

  ghost function Live(c: Config, s: View): set<Key> {
    set k | k in s.objects && Mine(c, k, s.objects[k]) && !s.objects[k].deleting
  }

  ghost function Pods(c: Config, s: View): set<Name> {
    set p | p in s.pods && Blocks(c, p, s.pods[p])
  }

  ghost function Work(c: Config, s: View): nat { |Left(c, s)| + |Live(c, s)| + |Pods(c, s)| }

  /** Kubernetes still has deletions of this workspace to finish. */
  ghost predicate Pending(c: Config, s: View) {
    exists k :: k in s.objects && Mine(c, k, s.objects[k]) && s.objects[k].deleting
  }

  lemma SubsetSize<T>(a: set<T>, b: set<T>)
    requires a <= b
    ensures |a| <= |b|
    ensures a != b ==> |a| < |b|
  {
    assert b == a + (b - a);
    assert |b| == |a| + |b - a|;
    if a != b {
      var x :| x in b && x !in a;
      assert x in b - a;
    }
  }

  lemma LessLeaves(c: Config, s: View, s': View)
    requires Less(c, s, s')
    ensures Left(c, s') <= Left(c, s) && Live(c, s') <= Live(c, s) && Pods(c, s') <= Pods(c, s)
  {
    forall k | k in Left(c, s') ensures k in Left(c, s) {
      SameMine(c, k, s.objects[k], s'.objects[k]);
    }
    forall k | k in Live(c, s') ensures k in Live(c, s) {
      SameMine(c, k, s.objects[k], s'.objects[k]);
    }
  }

  lemma WorkShrinks(c: Config, s: View, s': View)
    requires Less(c, s, s')
    ensures Work(c, s') <= Work(c, s)
    ensures Left(c, s') != Left(c, s) || Live(c, s') != Live(c, s) || Pods(c, s') != Pods(c, s) ==>
              Work(c, s') < Work(c, s)
  {
    LessLeaves(c, s, s');
    SubsetSize(Left(c, s'), Left(c, s));
    SubsetSize(Live(c, s'), Live(c, s));
    SubsetSize(Pods(c, s'), Pods(c, s));
  }

  /** An object that was found either is on its way out, or the cluster has less to do. */
  ghost predicate Moves(c: Config, s: View, s': View) { Pending(c, s') || Work(c, s') < Work(c, s) }

  lemma FoundMoves(c: Config, s: View, s': View, k: Key)
    requires Less(c, s, s') && k in s.objects && Mine(c, k, s.objects[k])
    requires k in s'.objects ==> s'.objects[k].deleting || !Mine(c, k, s'.objects[k])
    ensures Moves(c, s, s')
  {
    WorkShrinks(c, s, s');
    if k in s'.objects && Mine(c, k, s'.objects[k]) {
      assert Pending(c, s');
    } else {
      assert k in Left(c, s) && k !in Left(c, s');
    }
  }

  lemma MovesOn(c: Config, s: View, t: View, u: View)
    requires Less(c, s, t) && Less(c, t, u) && (Moves(c, s, t) || Moves(c, t, u))
    ensures Moves(c, s, u)
  {
    LessTrans(c, s, t, u);
    WorkShrinks(c, s, t);
    WorkShrinks(c, t, u);
    if Pending(c, t) {
      var k :| k in t.objects && Mine(c, k, t.objects[k]) && t.objects[k].deleting;
      if k in u.objects && Mine(c, k, u.objects[k]) {
        assert u.objects[k].deleting;
      } else {
        assert k in Left(c, t) && k !in Left(c, u);
      }
    }
  }

  lemma LessRefl(c: Config, s: View)
    ensures Less(c, s, s)
  {
  }

  // ------------------------------------------------------------------------- the calls

  /** What must hold for a deletion at stage `n` to be allowed. */
  ghost predicate Ready(c: Config, s: View, n: nat, namespaced: bool) {
    Cleared(c, s, n, namespaced) && (n >= 4 ==> NoPods(c, s))
  }

  lemma ReadyStays(c: Config, s: View, s': View, n: nat, namespaced: bool)
    requires Less(c, s, s') && Ready(c, s, n, namespaced)
    ensures Ready(c, s', n, namespaced)
  {
    ClearedStays(c, s, s', n, namespaced);
  }

  /** A key that is looked for by name at stage `n`. */
  ghost predicate Named(c: Config, k: Key, n: nat) {
    forall o :: Mine(c, k, o) && Stage(c, k, o) <= n
  }

  ghost predicate NoneSelected(c: Config, s: View, kind: Kind) {
    forall k :: k in s.objects && k.kind == kind ==> !Selected(c, s.objects[k])
  }

  /** Label selectors reach only kinds whose selected objects are looked for. */
  ghost predicate Selectable(c: Config, kind: Kind, n: nat) {
    forall name: Name, o :: Selected(c, o) ==> Mine(c, Key(kind, name), o) && Stage(c, Key(kind, name), o) == n
  }

  lemma SelectedBefore(c: Config, s: View, s': View, kind: Kind, n: nat)
    requires Less(c, s, s') && Selectable(c, kind, n)
    ensures forall k :: k in s'.objects && k.kind == kind && Selected(c, s'.objects[k]) ==>
              k in s.objects && Selected(c, s.objects[k])
  {
    forall k | k in s'.objects && k.kind == kind && Selected(c, s'.objects[k])
      ensures k in s.objects && Selected(c, s.objects[k])
    {
      assert Mine(c, Key(kind, k.name), s'.objects[k]) && k == Key(kind, k.name);
      SameMine(c, k, s.objects[k], s'.objects[k]);
    }
  }

  lemma NamedBefore(c: Config, s: View, s': View, k: Key, n: nat)
    requires Less(c, s, s') && Named(c, k, n)
    ensures k in s'.objects ==> k in s.objects
  {
    if k in s'.objects {
      assert Mine(c, k, s'.objects[k]);
    }
  }

  // ------------------------------------------------------------------- why a call may fail

  /** Something that is looked for is not to be touched, or cannot be deleted safely. */
  predicate Faulty(c: Config, s: View) {
    || (exists k :: k in s.objects && Mine(c, k, s.objects[k])
                    && (!Owned(c, s.objects[k]) || (s.objects[k].uid.None? && !s.objects[k].deleting)))
    || (c.pod in s.pods && !Owned(c, s.pods[c.pod].meta))
    || (s.namespace.Some? && s.namespace.value.installation != Some(c.installation))
  }

  lemma FaultsStay(c: Config, s: View, s': View)
    requires Less(c, s, s') && Faulty(c, s')
    ensures Faulty(c, s)
  {
    if k :| k in s'.objects && Mine(c, k, s'.objects[k])
            && (!Owned(c, s'.objects[k]) || (s'.objects[k].uid.None? && !s'.objects[k].deleting)) {
      SameMine(c, k, s.objects[k], s'.objects[k]);
    }
  }

  lemma ForeignNamespace(c: Config, s: View)
    requires s.namespace.Some? && s.namespace.value.installation != Some(c.installation)
    ensures Faulty(c, s)
  {
  }

  /** The reasons for an error: a request failed, a fault was there, or an object had gone by itself. */
  ghost predicate Excused(c: Config, s: View, s': View, failed: bool) {
    failed || Faulty(c, s) || Work(c, s') < Work(c, s)
  }

  lemma ExcusedOn(c: Config, s: View, t: View, u: View, failed: bool)
    requires Less(c, s, t) && Less(c, t, u) && Excused(c, t, u, failed)
    ensures Excused(c, s, u, failed)
  {
    WorkShrinks(c, s, t);
    if Faulty(c, t) {
      FaultsStay(c, s, t);
    }
  }

  /** An object that was read but is not there any more under its UID has gone. */
  lemma GoneMeanwhile(c: Config, read: View, s: View, k: Key)
    requires Less(c, read, s) && k in read.objects && Mine(c, k, read.objects[k]) && read.objects[k].uid.Some?
    requires k !in s.objects || s.objects[k].uid != read.objects[k].uid
    ensures Work(c, s) < Work(c, read)
  {
    WorkShrinks(c, read, s);
    assert k in Left(c, read) && k !in Left(c, s);
  }

  class Cluster {
    const c: Config
    var s: View
    ghost var log: seq<Entry>
    var failures: nat

    /** Every deletion so far was of an owned object whose turn it was. */
    ghost predicate Valid()
      reads this
    {
      WellFormed(s) && forall e :: e in log ==> Allowed(c, e)
    }

    constructor (config: Config, start: View)
      requires WellFormed(start)
      ensures Valid() && c == config && s == start && log == []
    {
      c, s, log, failures := config, start, [], 0;
    }

    /** A request is not answered, or answered with an error of the server's own. */
    method Fails() returns (fails: bool)
      modifies this`failures
      ensures failures == old(failures) + if fails then 1 else 0
    {
      fails := *;
      failures := failures + if fails then 1 else 0;
    }

    method Interfere()
      requires Valid()
      modifies this`s
      ensures Valid() && Settles(c, old(s), s)
    {
      var t: View := *;
      if Settles(c, s, t) {
        s := t;
      } else {
        LessRefl(c, s);
      }
    }

    /** `delete_owned_object`: only an owned object, once, and only under its own UID. */
    method DeleteObject(k: Key, o: Object, n: nat, namespaced: bool, ghost read: View) returns (ok: bool)
      requires Valid() && Ready(c, s, n, namespaced) && Relevant(namespaced, k)
      requires WellFormed(read) && Less(c, read, s) && k in read.objects && read.objects[k] == o
      requires Mine(c, k, o) && Stage(c, k, o) == n
      modifies this
      ensures Valid() && old(log) <= log && Less(c, old(s), s)
      ensures ok ==> (k in s.objects && Mine(c, k, s.objects[k]) ==> s.objects[k].deleting)
      ensures failures >= old(failures) && (!ok ==> Excused(c, read, s, failures > old(failures)))
    {
      hide Mine, Stage, Ready, Owned, Less, Allowed, Settles, Relevant, Work;
      LessRefl(c, s);
      if !Owned(c, o) {
        return false;
      }
      if o.deleting {
        StillDeleting(c, read, s, k);
        return true;
      }
      if o.uid.None? {
        return false;
      }
      Interfere();
      var fails := Fails();
      if fails {
        return false;
      }
      SettleLess(c, old(s), s);
      LessTrans(c, read, old(s), s);
      if k !in s.objects || s.objects[k].uid != o.uid {
        GoneMeanwhile(c, read, s, k);
        return false;
      }
      SameObject(c, read, s, k);
      ReadyStays(c, old(s), s, n, namespaced);
      ghost var t := s;
      if !s.objects[k].deleting {
        AllowedNow(c, s, k, o, n, namespaced);
        log := log + [Entry(k, s, namespaced)];
      }
      if * {
        s := s.(objects := s.objects - {k});
      } else {
        s := s.(objects := s.objects[k := s.objects[k].(deleting := true)]);
      }
      AskedLess(c, t, s, k);
      LessTrans(c, old(s), t, s);
      return true;
    }

    /** `delete_owned_if_present`: false means the object was not there. */
    method DeleteIfPresent(k: Key, n: nat, namespaced: bool) returns (r: Outcome<bool>)
      requires Valid() && Ready(c, s, n, namespaced) && Relevant(namespaced, k) && Named(c, k, n)
      modifies this
      ensures Valid() && old(log) <= log && Less(c, old(s), s) && Ready(c, s, n, namespaced)
      ensures r == Ok(false) ==> k !in s.objects
      ensures r == Ok(true) ==> Moves(c, old(s), s)
      ensures r.Ok? && k !in old(s).objects ==> r == Ok(false)
      ensures failures >= old(failures) && (r.Err? ==> Excused(c, old(s), s, failures > old(failures)))
    {
      hide Work, Faulty, Mine, Stage, Ready, Less, Allowed, Settles, Relevant, Named, Moves;
      Interfere();
      SettleLess(c, old(s), s);
      ReadyStays(c, old(s), s, n, namespaced);
      NamedBefore(c, old(s), s, k, n);
      var fails := Fails();
      if fails {
        return Err;
      }
      if k !in s.objects {
        return Ok(false);
      }
      ghost var t := s;
      NamedStage(c, s, k, n, namespaced);
      LessRefl(c, s);
      var ok := DeleteObject(k, s.objects[k], n, namespaced, t);
      ReadyStays(c, t, s, n, namespaced);
      LessTrans(c, old(s), t, s);
      if !ok {
        ExcusedOn(c, old(s), t, s, failures > old(failures));
        return Err;
      }
      FoundMoves(c, t, s, k);
      MovesOn(c, old(s), t, s);
      return Ok(true);
    }

    /** `delete_all_owned`: everything the mapping label selects; false means nothing was listed. */
    method DeleteAll(kind: Kind, n: nat, namespaced: bool) returns (r: Outcome<bool>)
      requires Valid() && Ready(c, s, n, namespaced) && Selectable(c, kind, n)
      requires namespaced || kind in {RoleBinding, Filter}
      modifies this
      ensures Valid() && old(log) <= log && Less(c, old(s), s) && Ready(c, s, n, namespaced)
      ensures r == Ok(false) ==> NoneSelected(c, s, kind)
      ensures r == Ok(true) ==> Moves(c, old(s), s)
      ensures r.Ok? && NoneSelected(c, old(s), kind) ==> r == Ok(false)
      ensures failures >= old(failures) && (r.Err? ==> Excused(c, old(s), s, failures > old(failures)))
    {
      hide Work, Faulty, Mine, Stage, Ready, Less, Allowed, Settles, Moves, Selected;
      Interfere();
      SettleLess(c, old(s), s);
      ReadyStays(c, old(s), s, n, namespaced);
      SelectedBefore(c, old(s), s, kind, n);
      var fails := Fails();
      if fails {
        return Err;
      }
      ghost var read := s;
      var listed := s.objects;
      var todo := set k | k in listed && k.kind == kind && Selected(c, listed[k]);
      if todo == {} {
        assert forall k :: k in s.objects && k.kind == kind && Selected(c, s.objects[k]) ==> k in todo;
        return Ok(false);
      }
      LessRefl(c, s);
      var ok := DeleteListed(todo, listed, kind, n, namespaced, read);
      LessTrans(c, old(s), read, s);
      MovesIf(c, old(s), read, s, ok);
      if !ok {
        ExcusedOn(c, old(s), read, s, failures > old(failures));
        return Err;
      }
      return Ok(true);
    }

    method DeleteListed(keys: set<Key>, listed: map<Key, Object>, kind: Kind, n: nat, namespaced: bool,
                        ghost read: View) returns (ok: bool)
      requires Valid() && Ready(c, s, n, namespaced) && Selectable(c, kind, n) && s == read && keys != {}
      requires namespaced || kind in {RoleBinding, Filter}
      requires listed == read.objects && WellFormed(read)
      requires forall k :: k in keys ==> k in listed && k.kind == kind && Selected(c, listed[k])
      modifies this
      ensures Valid() && old(log) <= log && Less(c, read, s) && Ready(c, s, n, namespaced)
      ensures ok ==> Moves(c, read, s)
      ensures failures >= old(failures) && (!ok ==> Excused(c, read, s, failures > old(failures)))
    {
      hide Mine, Stage, Ready, Less, Allowed, Settles, Moves, Selected, WellFormed, Selectable, Work, Faulty;
      LessRefl(c, s);
      var todo := keys;
      while todo != {}
        invariant Valid() && old(log) <= log && Less(c, read, s) && Ready(c, s, n, namespaced)
        invariant todo <= keys && failures >= old(failures)
        invariant todo != keys ==> Moves(c, read, s)
        decreases |todo|
      {
        var k :| k in todo;
        todo := todo - {k};
        SelectedMine(c, k, listed[k], n);
        ghost var t := s;
        ok := DeleteObject(k, listed[k], n, namespaced, read);
        ReadyStays(c, t, s, n, namespaced);
        LessTrans(c, read, t, s);
        if !ok {
          return;
        }
        FoundMoves(c, read, s, k);
      }
      return true;
    }

    // ------------------------------------------------------------------ stage by stage

    method DeleteRoutes() returns (r: Outcome<bool>)
      requires Valid() && Ready(c, s, 1, true)
      modifies this
      ensures Valid() && old(log) <= log && Less(c, old(s), s)
      ensures r == Ok(false) ==> Ready(c, s, 2, true)
      ensures r == Ok(true) ==> Moves(c, old(s), s)
      ensures r.Ok? && Nothing(c, old(s), true) ==> r == Ok(false)
      ensures failures >= old(failures) && (r.Err? ==> Excused(c, old(s), s, failures > old(failures)))
    {
      hide Work, Faulty, Less, Moves, Ready, Nothing, NoneSelected, Named, Selectable;
      Keys(c);
      NothingMeans(c, s);
      var k := Key(Ingress, c.webShellIngress);
      var shell := DeleteIfPresent(k, 1, true);
      if shell.Err? {
        return Err;
      }
      ghost var t := s;
      NothingStays(c, old(s), t);
      NothingMeans(c, t);
      var mapped := DeleteAll(Ingress, 1, true);
      LessTrans(c, old(s), t, s);
      if mapped.Err? {
        ExcusedOn(c, old(s), t, s, failures > old(failures));
        return Err;
      }
      NamedBefore(c, t, s, k, 1);
      MovesEither(c, old(s), t, s, shell.value, mapped.value);
      if !shell.value && !mapped.value {
        RoutesGone(c, s);
      }
      return Ok(shell.value || mapped.value);
    }

    /** `delete_owned_web_shell_filter`: gateway filters, if the gateway has any. */
    method DeleteFilters(namespaced: bool) returns (r: Outcome<bool>)
      requires Valid() && Ready(c, s, 2, namespaced)
      modifies this
      ensures Valid() && old(log) <= log && Less(c, old(s), s) && Ready(c, s, 2, namespaced)
      ensures r == Ok(false) ==> NoFilters(c, s)
      ensures r == Ok(true) ==> Moves(c, old(s), s)
      ensures r.Ok? && NoFilters(c, old(s)) ==> r == Ok(false)
      ensures failures >= old(failures) && (r.Err? ==> Excused(c, old(s), s, failures > old(failures)))
    {
      hide Work, Faulty, Less, Moves, Ready, NoneSelected, Named, Selectable;
      LessRefl(c, s);
      if !c.mtls {
        return Ok(false);
      }
      FilterKeys(c);
      FiltersMean(c, s);
      var k := Key(Filter, c.webShellFilter);
      var shell := DeleteIfPresent(k, 2, namespaced);
      if shell.Err? {
        return Err;
      }
      if !c.mappingDomain {
        FiltersGone(c, s);
        return shell;
      }
      ghost var t := s;
      FiltersBefore(c, old(s), t);
      FiltersMean(c, t);
      var mapped := DeleteAll(Filter, 2, namespaced);
      LessTrans(c, old(s), t, s);
      if mapped.Err? {
        ExcusedOn(c, old(s), t, s, failures > old(failures));
        return Err;
      }
      NamedBefore(c, t, s, k, 2);
      MovesEither(c, old(s), t, s, shell.value, mapped.value);
      if !shell.value && !mapped.value {
        FiltersGone(c, s);
      }
      return Ok(shell.value || mapped.value);
    }

    /** What the mapping label selects among policies and services. */
    method DeleteMapped() returns (r: Outcome<bool>)
      requires Valid() && Ready(c, s, 2, true)
      modifies this
      ensures Valid() && old(log) <= log && Less(c, old(s), s) && Ready(c, s, 2, true)
      ensures r == Ok(false) ==> NoneSelected(c, s, Policy) && NoneSelected(c, s, Service)
      ensures r == Ok(true) ==> Moves(c, old(s), s)
      ensures r.Ok? && Nothing(c, old(s), true) ==> r == Ok(false)
      ensures failures >= old(failures) && (r.Err? ==> Excused(c, old(s), s, failures > old(failures)))
    {
      hide Work, Faulty, Less, Moves, Ready, Nothing, NoneSelected, Named, Selectable;
      Keys(c);
      NothingMeans(c, s);
      var policies := DeleteAll(Policy, 2, true);
      if policies.Err? {
        return Err;
      }
      ghost var t := s;
      NothingStays(c, old(s), t);
      NothingMeans(c, t);
      var services := DeleteAll(Service, 2, true);
      LessTrans(c, old(s), t, s);
      if services.Err? {
        ExcusedOn(c, old(s), t, s, failures > old(failures));
        return Err;
      }
      NoneSelectedStays(c, t, s, Policy, 2);
      MovesEither(c, old(s), t, s, policies.value, services.value);
      return Ok(policies.value || services.value);
    }

    method DeleteServices() returns (r: Outcome<bool>)
      requires Valid() && Ready(c, s, 2, true)
      modifies this
      ensures Valid() && old(log) <= log && Less(c, old(s), s) && Ready(c, s, 2, true)
      ensures r == Ok(false) ==> Key(Service, c.sshService) !in s.objects && Key(Service, c.service) !in s.objects
      ensures r == Ok(true) ==> Moves(c, old(s), s)
      ensures r.Ok? && Nothing(c, old(s), true) ==> r == Ok(false)
      ensures failures >= old(failures) && (r.Err? ==> Excused(c, old(s), s, failures > old(failures)))
    {
      hide Work, Faulty, Less, Moves, Ready, Nothing, NoneSelected, Named, Selectable;
      Keys(c);
      NothingMeans(c, s);
      var ssh := DeleteIfPresent(Key(Service, c.sshService), 2, true);
      if ssh.Err? {
        return Err;
      }
      ghost var t := s;
      NothingStays(c, old(s), t);
      NothingMeans(c, t);
      var web := DeleteIfPresent(Key(Service, c.service), 2, true);
      LessTrans(c, old(s), t, s);
      if web.Err? {
        ExcusedOn(c, old(s), t, s, failures > old(failures));
        return Err;
      }
      NamedBefore(c, t, s, Key(Service, c.sshService), 2);
      MovesEither(c, old(s), t, s, ssh.value, web.value);
      return Ok(ssh.value || web.value);
    }

    /** Filters, mapping policies and services; they go together, after every route. */
    method DeleteServing() returns (r: Outcome<bool>)
      requires Valid() && Ready(c, s, 2, true)
      modifies this
      ensures Valid() && old(log) <= log && Less(c, old(s), s)
      ensures r == Ok(false) ==> Ready(c, s, 3, true)
      ensures r == Ok(true) ==> Moves(c, old(s), s)
      ensures r.Ok? && Nothing(c, old(s), true) ==> r == Ok(false)
      ensures failures >= old(failures) && (r.Err? ==> Excused(c, old(s), s, failures > old(failures)))
    {
      hide Work, Faulty, Less, Moves, Ready, Nothing, NoneSelected, NoFilters;
      Keys(c);
      NothingMeans(c, s);
      var filters := DeleteFilters(true);
      if filters.Err? {
        return Err;
      }
      ghost var t := s;
      NothingStays(c, old(s), t);
      var mapped := DeleteMapped();
      LessTrans(c, old(s), t, s);
      if mapped.Err? {
        ExcusedOn(c, old(s), t, s, failures > old(failures));
        return Err;
      }
      FiltersBefore(c, t, s);
      MovesEither(c, old(s), t, s, filters.value, mapped.value);
      ghost var u := s;
      NothingStays(c, old(s), u);
      var services := DeleteServices();
      LessTrans(c, old(s), u, s);
      if services.Err? {
        ExcusedOn(c, old(s), u, s, failures > old(failures));
        return Err;
      }
      MovesEither(c, old(s), u, s, filters.value || mapped.value, services.value);
      if !filters.value && !mapped.value && !services.value {
        FiltersBefore(c, u, s);
        NoneSelectedStays(c, u, s, Policy, 2);
        NoneSelectedStays(c, u, s, Service, 2);
        ServingGone(c, s);
      }
      return Ok(filters.value || mapped.value || services.value);
    }

    /** `workspace_pod_or_pvc_reference_is_present`. */
    method PodsPresent() returns (r: Outcome<bool>)
      requires Valid()
      modifies this
      ensures Valid() && log == old(log) && Less(c, old(s), s)
      ensures r == Ok(false) ==> NoPods(c, s)
      ensures r == Ok(true) ==> Pods(c, old(s)) != {}
      ensures failures >= old(failures) && (r.Err? ==> Excused(c, old(s), s, failures > old(failures)))
    {
      hide Work, Mine, Stage;
      LessRefl(c, s);
      Interfere();
      PodsBefore(c, old(s), s);
      var fails := Fails();
      if fails {
        return Err;
      }
      if c.pod in s.pods {
        if !Owned(c, s.pods[c.pod].meta) {
          assert Faulty(c, s);
          FaultsStay(c, old(s), s);
          return Err;
        }
        assert c.pod in Pods(c, s);
        return Ok(true);
      }
      ghost var t := s;
      Interfere();
      PodsBefore(c, t, s);
      LessTrans(c, old(s), t, s);
      fails := Fails();
      if fails {
        return Err;
      }
      if exists p :: p in s.pods && Blocks(c, p, s.pods[p]) {
        ghost var p :| p in s.pods && Blocks(c, p, s.pods[p]);
        assert p in Pods(c, s);
        return Ok(true);
      }
      return Ok(false);
    }

    /** The remaining objects of one kind, name by name. */
    method DeleteEach(kind: Kind, names: seq<Name>) returns (r: Outcome<bool>)
      requires Valid() && Ready(c, s, 4, true)
      requires forall n :: n in names ==> Named(c, Key(kind, n), 4)
      modifies this
      ensures Valid() && old(log) <= log && Less(c, old(s), s) && Ready(c, s, 4, true)
      ensures r == Ok(false) ==> forall n :: n in names ==> Key(kind, n) !in s.objects
      ensures r == Ok(true) ==> Moves(c, old(s), s)
      ensures r.Ok? && (forall n :: n in names ==> Key(kind, n) !in old(s).objects) ==> r == Ok(false)
      ensures failures >= old(failures) && (r.Err? ==> Excused(c, old(s), s, failures > old(failures)))
    {
      hide Work, Faulty, Less, Moves, Ready, Named, Allowed;
      var present := false;
      LessRefl(c, s);
      for i := 0 to |names|
        invariant Valid() && old(log) <= log && Less(c, old(s), s) && Ready(c, s, 4, true)
        invariant !present ==> forall j :: 0 <= j < i ==> Key(kind, names[j]) !in s.objects
        invariant present ==> Moves(c, old(s), s)
        invariant failures >= old(failures)
        invariant (forall n :: n in names ==> Key(kind, n) !in old(s).objects) ==> !present
      {
        ghost var t := s;
        NamedBefore(c, old(s), t, Key(kind, names[i]), 4);
        var found := DeleteIfPresent(Key(kind, names[i]), 4, true);
        LessTrans(c, old(s), t, s);
        if found.Err? {
          ExcusedOn(c, old(s), t, s, failures > old(failures));
          return Err;
        }
        forall j | 0 <= j < i ensures Key(kind, names[j]) in s.objects ==> Key(kind, names[j]) in t.objects {
          NamedBefore(c, t, s, Key(kind, names[j]), 4);
        }
        MovesEither(c, old(s), t, s, present, found.value);
        present := present || found.value;
      }
      return Ok(present);
    }

    method DeleteConfigs() returns (r: Outcome<bool>)
      requires Valid() && Ready(c, s, 4, true)
      modifies this
      ensures Valid() && old(log) <= log && Less(c, old(s), s) && Ready(c, s, 4, true)
      ensures r == Ok(false) ==>
                && (forall n :: n in c.configMaps ==> Key(ConfigMap, n) !in s.objects)
                && (forall n :: n in c.secrets ==> Key(Secret, n) !in s.objects)
      ensures r == Ok(true) ==> Moves(c, old(s), s)
      ensures r.Ok? && Nothing(c, old(s), true) ==> r == Ok(false)
      ensures failures >= old(failures) && (r.Err? ==> Excused(c, old(s), s, failures > old(failures)))
    {
      hide Work, Faulty, Less, Moves, Ready, Nothing, Named;
      ListedKeys(c);
      NothingMeans(c, s);
      var configMaps := DeleteEach(ConfigMap, c.configMaps);
      if configMaps.Err? {
        return Err;
      }
      ghost var t := s;
      NothingStays(c, old(s), t);
      NothingMeans(c, t);
      var secrets := DeleteEach(Secret, c.secrets);
      LessTrans(c, old(s), t, s);
      if secrets.Err? {
        ExcusedOn(c, old(s), t, s, failures > old(failures));
        return Err;
      }
      forall n | n in c.configMaps ensures Key(ConfigMap, n) in s.objects ==> Key(ConfigMap, n) in t.objects {
        NamedBefore(c, t, s, Key(ConfigMap, n), 4);
      }
      MovesEither(c, old(s), t, s, configMaps.value, secrets.value);
      return Ok(configMaps.value || secrets.value);
    }

    /** The network policy, the configuration objects and the service account, in that order. */
    method DeleteSupport() returns (r: Outcome<bool>)
      requires Valid() && Ready(c, s, 4, true)
      modifies this
      ensures Valid() && old(log) <= log && Less(c, old(s), s)
      ensures r == Ok(false) ==> Ready(c, s, 5, true)
      ensures r == Ok(true) ==> Moves(c, old(s), s)
      ensures r.Ok? && Nothing(c, old(s), true) ==> r == Ok(false)
      ensures failures >= old(failures) && (r.Err? ==> Excused(c, old(s), s, failures > old(failures)))
    {
      hide Work, Faulty, Less, Moves, Ready, Nothing, Named, Selectable, NoneSelected;
      Keys(c);
      NothingMeans(c, s);
      var policy := DeleteIfPresent(Key(Policy, c.networkPolicy), 4, true);
      if policy.Err? {
        return Err;
      }
      ghost var t := s;
      NothingStays(c, old(s), t);
      var configs := DeleteConfigs();
      LessTrans(c, old(s), t, s);
      if configs.Err? {
        ExcusedOn(c, old(s), t, s, failures > old(failures));
        return Err;
      }
      MovesEither(c, old(s), t, s, policy.value, configs.value);
      ghost var u := s;
      NamedBefore(c, t, u, Key(Policy, c.networkPolicy), 4);
      NothingStays(c, old(s), u);
      NothingMeans(c, u);
      var account := DeleteIfPresent(Key(Account, c.account), 4, true);
      LessTrans(c, old(s), u, s);
      if account.Err? {
        ExcusedOn(c, old(s), u, s, failures > old(failures));
        return Err;
      }
      MovesEither(c, old(s), u, s, policy.value || configs.value, account.value);
      if !policy.value && !configs.value && !account.value {
        NamedBefore(c, u, s, Key(Policy, c.networkPolicy), 4);
        StillConfigured(c, u, s);
        SupportGone(c, s);
      }
      return Ok(policy.value || configs.value || account.value);
    }

    method DeleteClaim(name: Name, bound: bool) returns (r: Outcome<bool>)
      requires Valid() && Ready(c, s, 5, true) && (bound || Named(c, Key(Claim, name), 5))
      modifies this
      ensures Valid() && old(log) <= log && Less(c, old(s), s) && Ready(c, s, 5, true)
      ensures r == Ok(false) ==> bound || Key(Claim, name) !in s.objects
      ensures r == Ok(true) ==> Moves(c, old(s), s)
      ensures r.Ok? && (bound || Key(Claim, name) !in old(s).objects) ==> r == Ok(false)
      ensures failures >= old(failures) && (r.Err? ==> Excused(c, old(s), s, failures > old(failures)))
    {
      LessRefl(c, s);
      if bound {
        return Ok(false);
      }
      r := DeleteIfPresent(Key(Claim, name), 5, true);
    }

    /** The default claims; a claim the workspace was bound to explicitly is never looked at. */
    method DeleteClaims() returns (r: Outcome<bool>)
      requires Valid() && Ready(c, s, 5, true)
      modifies this
      ensures Valid() && old(log) <= log && Less(c, old(s), s)
      ensures r == Ok(false) ==> Nothing(c, s, true)
      ensures r == Ok(true) ==> Moves(c, old(s), s)
      ensures r.Ok? && Nothing(c, old(s), true) ==> r == Ok(false)
      ensures failures >= old(failures) && (r.Err? ==> Excused(c, old(s), s, failures > old(failures)))
    {
      hide Work, Faulty, Less, Moves, Ready, Nothing, Named;
      ClaimKeys(c);
      NothingMeans(c, s);
      var home := DeleteClaim(c.homeClaim, c.homeBound);
      if home.Err? {
        return Err;
      }
      ghost var t := s;
      NothingStays(c, old(s), t);
      NothingMeans(c, t);
      var scratch := DeleteClaim(c.scratchClaim, c.scratchBound);
      LessTrans(c, old(s), t, s);
      if scratch.Err? {
        ExcusedOn(c, old(s), t, s, failures > old(failures));
        return Err;
      }
      if !c.homeBound {
        NamedBefore(c, t, s, Key(Claim, c.homeClaim), 5);
      }
      MovesEither(c, old(s), t, s, home.value, scratch.value);
      if !home.value && !scratch.value {
        ClaimsGone(c, s);
      }
      return Ok(home.value || scratch.value);
    }

    /** `delete_workspace_remaining`. */
    method DeleteRemaining() returns (r: Outcome<Progress>)
      requires Valid() && Ready(c, s, 4, true)
      modifies this
      ensures Valid() && old(log) <= log && Less(c, old(s), s)
      ensures r == Ok(Gone) ==> Nothing(c, s, true)
      ensures r == Ok(DeletionRequested) ==> Moves(c, old(s), s)
      ensures r != Ok(Terminating)
      ensures r.Ok? && Nothing(c, old(s), true) ==> r == Ok(Gone)
      ensures failures >= old(failures) && (r.Err? ==> Excused(c, old(s), s, failures > old(failures)))
    {
      hide Work, Faulty, Less, Moves, Ready, Nothing, Named;
      var support := DeleteSupport();
      if support.Err? {
        return Err;
      }
      if support.value {
        return Ok(DeletionRequested);
      }
      ghost var u := s;
      NothingStays(c, old(s), u);
      var claims := DeleteClaims();
      LessTrans(c, old(s), u, s);
      if claims.Err? {
        ExcusedOn(c, old(s), u, s, failures > old(failures));
        return Err;
      }
      MovesIf(c, old(s), u, s, claims.value);
      return Ok(if claims.value then DeletionRequested else Gone);
    }

    method DeleteWorkload() returns (r: Outcome<Progress>)
      requires Valid() && Ready(c, s, 3, true)
      modifies this
      ensures Valid() && old(log) <= log && Less(c, old(s), s)
      ensures r == Ok(Gone) ==> Nothing(c, s, true)
      ensures r == Ok(DeletionRequested) ==> Moves(c, old(s), s)
      ensures r == Ok(Terminating) ==> Pods(c, old(s)) != {}
      ensures r.Ok? && Nothing(c, old(s), true) ==> r == Ok(Gone)
      ensures failures >= old(failures) && (r.Err? ==> Excused(c, old(s), s, failures > old(failures)))
    {
      hide Work, Faulty, Less, Moves, Ready, Nothing, Named, Pods, NoPods;
      Keys(c);
      NothingMeans(c, s);
      NothingPods(c, s);
      var workload := DeleteIfPresent(Key(StatefulSet, c.statefulSet), 3, true);
      if workload.Err? {
        return Err;
      }
      if workload.value {
        return Ok(DeletionRequested);
      }
      ghost var t := s;
      NothingStays(c, old(s), t);
      NothingPods(c, t);
      var pods := PodsPresent();
      LessTrans(c, old(s), t, s);
      PodsSubset(c, old(s), t);
      if pods.Err? {
        ExcusedOn(c, old(s), t, s, failures > old(failures));
        return Err;
      }
      if pods.value {
        return Ok(Terminating);
      }
      ReadyStays(c, t, s, 3, true);
      NamedBefore(c, t, s, Key(StatefulSet, c.statefulSet), 3);
      WorkloadGone(c, s);
      ghost var u := s;
      NothingStays(c, old(s), u);
      r := DeleteRemaining();
      LessTrans(c, old(s), u, s);
      if r.Err? {
        ExcusedOn(c, old(s), u, s, failures > old(failures));
      }
      MovesIf(c, old(s), u, s, r == Ok(DeletionRequested));
    }

    /** `delete_workspace_resources`. */
    method DeleteResources() returns (r: Outcome<Progress>)
      requires Valid() && Ready(c, s, 1, true)
      modifies this
      ensures Valid() && old(log) <= log && Less(c, old(s), s)
      ensures r == Ok(Gone) ==> Nothing(c, s, true)
      ensures r == Ok(DeletionRequested) ==> Moves(c, old(s), s)
      ensures r == Ok(Terminating) ==> Pods(c, old(s)) != {}
      ensures r.Ok? && Nothing(c, old(s), true) ==> r == Ok(Gone)
      ensures failures >= old(failures) && (r.Err? ==> Excused(c, old(s), s, failures > old(failures)))
    {
      hide Work, Faulty, Less, Moves, Ready, Nothing, Pods;
      var routes := DeleteRoutes();
      if routes.Err? {
        return Err;
      }
      if routes.value {
        return Ok(DeletionRequested);
      }
      ghost var t := s;
      NothingStays(c, old(s), t);
      var serving := DeleteServing();
      LessTrans(c, old(s), t, s);
      if serving.Err? {
        ExcusedOn(c, old(s), t, s, failures > old(failures));
        return Err;
      }
      MovesIf(c, old(s), t, s, serving.value);
      if serving.value {
        return Ok(DeletionRequested);
      }
      ghost var u := s;
      NothingStays(c, old(s), u);
      PodsSubset(c, old(s), u);
      r := DeleteWorkload();
      LessTrans(c, old(s), u, s);
      if r.Err? {
        ExcusedOn(c, old(s), u, s, failures > old(failures));
      }
      MovesIf(c, old(s), u, s, r == Ok(DeletionRequested));
    }

    method DeleteWithoutNamespace() returns (r: Outcome<Progress>)
      requires Valid() && Ready(c, s, 1, false)
      modifies this
      ensures Valid() && old(log) <= log && Less(c, old(s), s)
      ensures r == Ok(Gone) ==> Nothing(c, s, false)
      ensures r == Ok(DeletionRequested) ==> Moves(c, old(s), s)
      ensures r != Ok(Terminating)
      ensures r.Ok? && Nothing(c, old(s), false) ==> r == Ok(Gone)
      ensures failures >= old(failures) && (r.Err? ==> Excused(c, old(s), s, failures > old(failures)))
    {
      hide Work, Faulty, Less, Moves, NoFilters;
      OutsideFilters(c, s);
      var filters := DeleteFilters(false);
      if filters.Err? {
        return Err;
      }
      if !filters.value {
        OutsideGone(c, s);
      }
      return Ok(if filters.value then DeletionRequested else Gone);
    }

    /**
     `delete_or_confirm`. Gone means nothing that is looked for remains, and that
     is the only answer once nothing does; any other answer means that deletions
     are under way, that the call made progress, or that Pods still block it.
     */
    method DeleteOrConfirm() returns (r: Outcome<Progress>)
      requires Valid()
      modifies this
      ensures Valid() && old(log) <= log && Less(c, old(s), s)
      ensures r == Ok(Gone) ==> Nothing(c, s, s.namespace.Some?)
      ensures r == Ok(DeletionRequested) ==> Moves(c, old(s), s)
      ensures r == Ok(Terminating) ==> Pods(c, old(s)) != {}
      ensures r.Ok? && Nothing(c, old(s), true) ==> r == Ok(Gone)
      ensures failures >= old(failures) && (r.Err? ==> Excused(c, old(s), s, failures > old(failures)))
    {
      hide Work, Faulty, Less, Moves, Nothing, Pods, Ready, Named;
      Keys(c);
      NothingMeans(c, s);
      AlwaysReady(c, s);
      var binding := DeleteIfPresent(Key(RoleBinding, c.binding), 0, true);
      if binding.Err? {
        return Err;
      }
      if binding.value {
        return Ok(DeletionRequested);
      }
      ghost var t := s;
      Interfere();
      SettleLess(c, t, s);
      LessTrans(c, old(s), t, s);
      NamedBefore(c, t, s, Key(RoleBinding, c.binding), 0);
      BindingGone(c, s);
      NothingStays(c, old(s), s);
      ghost var u := s;
      PodsSubset(c, old(s), u);
      var fails := Fails();
      if fails {
        return Err;
      }
      if s.namespace.None? {
        r := DeleteWithoutNamespace();
        LessTrans(c, old(s), u, s);
        if r.Err? {
          ExcusedOn(c, old(s), u, s, failures > old(failures));
        }
        MovesIf(c, old(s), u, s, r == Ok(DeletionRequested));
        NamespaceGone(c, u, s);
        return;
      }
      if s.namespace.value.installation != Some(c.installation) {
        ForeignNamespace(c, s);
        FaultsStay(c, old(s), s);
        return Err;
      }
      r := DeleteResources();
      LessTrans(c, old(s), u, s);
      if r.Err? {
        ExcusedOn(c, old(s), u, s, failures > old(failures));
      }
      MovesIf(c, old(s), u, s, r == Ok(DeletionRequested));
      NothingEither(c, s);
    }

    // ------------------------------------------------------------------- call after call

    /** Kubernetes finishes a deletion that is pending, and lets a blocking Pod go. */
    method FinishSome(r: Progress)
      requires Valid()
      modifies this`s
      ensures Valid() && Less(c, old(s), s)
      ensures Pending(c, old(s)) ==> Left(c, s) != Left(c, old(s))
      ensures r == Terminating && Pods(c, old(s)) != {} ==> Pods(c, s) != Pods(c, old(s))
    {
      hide Mine, Blocks, Allowed;
      LessRefl(c, s);
      if exists k :: k in s.objects && Mine(c, k, s.objects[k]) && s.objects[k].deleting {
        var k :| k in s.objects && Mine(c, k, s.objects[k]) && s.objects[k].deleting;
        AskedLess(c, s, s.(objects := s.objects - {k}), k);
        assert k in Left(c, s) && k !in Left(c, s.(objects := s.objects - {k}));
        s := s.(objects := s.objects - {k});
      }
      ghost var t := s;
      if exists p :: p in s.pods && Blocks(c, p, s.pods[p]) {
        var p :| p in s.pods && Blocks(c, p, s.pods[p]);
        assert p in Pods(c, s) && p !in Pods(c, s.(pods := s.pods - {p}));
        s := s.(pods := s.pods - {p});
      }
      PodGone(c, t, s);
      LessTrans(c, old(s), t, s);
    }

    /** One call and what the cluster does after it. */
    method CallAndSettle() returns (r: Outcome<Progress>)
      requires Valid()
      modifies this
      ensures Valid() && old(log) <= log && Less(c, old(s), s)
      ensures r.Ok? && r.value != Gone ==> Round(c, old(s), s, r.value)
      ensures r == Ok(Gone) ==> Nothing(c, s, s.namespace.Some?)
      ensures failures >= old(failures) && (r.Err? ==> Excused(c, old(s), s, failures > old(failures)))
    {
      hide Less, Moves, Pending, Pods, Left, Nothing, Allowed, Work, Faulty;
      r := DeleteOrConfirm();
      if r.Ok? && r.value != Gone {
        ghost var t := s;
        FinishSome(r.value);
        LessTrans(c, old(s), t, s);
      }
    }

    /**
     Calling again until the answer is Gone gets there, in no more calls than there
     was work, unless a request fails or something is not to be touched: each call
     that does not answer Gone leaves the cluster with less to do.
     */
    method DeleteUntilGone() returns (r: Outcome<Progress>, calls: nat)
      requires Valid()
      modifies this
      ensures Valid() && old(log) <= log && failures >= old(failures)
      ensures r.Ok? ==> r.value == Gone && Nothing(c, s, s.namespace.Some?)
      ensures failures == old(failures) && !Faulty(c, old(s)) ==> r == Ok(Gone)
      ensures calls <= Work(c, old(s)) + 1
    {
      hide Round, Work, Nothing, Allowed, Less, Faulty;
      calls := 0;
      LessRefl(c, s);
      while true
        invariant Valid() && old(log) <= log && calls + Work(c, s) <= Work(c, old(s))
        invariant Less(c, old(s), s) && failures >= old(failures)
        decreases Work(c, s)
      {
        var was, before := s, failures;
        r := CallAndSettle();
        calls := calls + 1;
        LessTrans(c, old(s), was, s);
        if r == Ok(Gone) {
          return;
        }
        if r.Err? {
          if failures > before || Faulty(c, was) {
            if Faulty(c, was) {
              FaultsStay(c, old(s), was);
            }
            return;
          }
        } else {
          RoundWorks(c, was, s, r.value);
        }
      }
    }
  }

  lemma PodGone(c: Config, s: View, s': View)
    requires s' == s.(pods := s'.pods) && forall p :: p in s'.pods ==> p in s.pods && s'.pods[p] == s.pods[p]
    ensures Less(c, s, s') && Left(c, s') == Left(c, s)
  {
  }

  lemma AlwaysReady(c: Config, s: View)
    ensures Ready(c, s, 0, true)
  {
  }

  lemma BindingGone(c: Config, s: View)
    requires Key(RoleBinding, c.binding) !in s.objects
    ensures Ready(c, s, 1, true) && Ready(c, s, 1, false)
  {
  }

  lemma NamespaceGone(c: Config, s: View, s': View)
    requires Less(c, s, s') && s.namespace.None?
    ensures s'.namespace.None?
    ensures Nothing(c, s, true) ==> Nothing(c, s, false)
  {
  }

  lemma NothingEither(c: Config, s: View)
    ensures Nothing(c, s, true) ==> Nothing(c, s, s.namespace.Some?)
  {
  }

  lemma OutsideFilters(c: Config, s: View)
    requires Ready(c, s, 1, false)
    ensures Ready(c, s, 2, false) && (Nothing(c, s, false) ==> NoFilters(c, s))
  {
  }

  lemma OutsideGone(c: Config, s: View)
    requires Ready(c, s, 2, false) && NoFilters(c, s)
    ensures Nothing(c, s, false)
  {
  }

  lemma NothingPods(c: Config, s: View)
    ensures Nothing(c, s, true) ==> Pods(c, s) == {}
  {
  }

  lemma PodsSubset(c: Config, s: View, s': View)
    requires Less(c, s, s')
    ensures Pods(c, s') != {} ==> Pods(c, s) != {}
  {
    LessLeaves(c, s, s');
  }

  lemma PodsBefore(c: Config, s: View, s': View)
    requires Settles(c, s, s')
    ensures Less(c, s, s') && (Pods(c, s') != {} ==> Pods(c, s) != {})
  {
    LessLeaves(c, s, s');
  }

  lemma WorkloadGone(c: Config, s: View)
    requires Ready(c, s, 3, true) && Key(StatefulSet, c.statefulSet) !in s.objects && NoPods(c, s)
    ensures Ready(c, s, 4, true)
  {
  }

  lemma SupportGone(c: Config, s: View)
    requires Ready(c, s, 4, true)
    requires Key(Policy, c.networkPolicy) !in s.objects && Key(Account, c.account) !in s.objects
    requires forall n :: n in c.configMaps ==> Key(ConfigMap, n) !in s.objects
    requires forall n :: n in c.secrets ==> Key(Secret, n) !in s.objects
    ensures Ready(c, s, 5, true)
  {
  }

  /** Configuration that was gone is still gone. */
  lemma StillConfigured(c: Config, s: View, s': View)
    requires Less(c, s, s')
    ensures forall n :: n in c.configMaps && Key(ConfigMap, n) in s'.objects ==> Key(ConfigMap, n) in s.objects
    ensures forall n :: n in c.secrets && Key(Secret, n) in s'.objects ==> Key(Secret, n) in s.objects
  {
    forall n | n in c.configMaps && Key(ConfigMap, n) in s'.objects ensures Key(ConfigMap, n) in s.objects {
      assert Mine(c, Key(ConfigMap, n), s'.objects[Key(ConfigMap, n)]);
    }
    forall n | n in c.secrets && Key(Secret, n) in s'.objects ensures Key(Secret, n) in s.objects {
      assert Mine(c, Key(Secret, n), s'.objects[Key(Secret, n)]);
    }
  }

  lemma ClaimsGone(c: Config, s: View)
    requires Ready(c, s, 5, true)
    requires c.homeBound || Key(Claim, c.homeClaim) !in s.objects
    requires c.scratchBound || Key(Claim, c.scratchClaim) !in s.objects
    ensures Nothing(c, s, true)
  {
  }

  lemma ClaimKeys(c: Config)
    ensures !c.homeBound ==> Named(c, Key(Claim, c.homeClaim), 5)
    ensures !c.scratchBound ==> Named(c, Key(Claim, c.scratchClaim), 5)
  {
  }

  lemma ListedKeys(c: Config)
    ensures forall n :: n in c.configMaps ==> Named(c, Key(ConfigMap, n), 4)
    ensures forall n :: n in c.secrets ==> Named(c, Key(Secret, n), 4)
  {
  }

  lemma ServingGone(c: Config, s: View)
    requires Ready(c, s, 2, true) && NoFilters(c, s) && NoneSelected(c, s, Policy) && NoneSelected(c, s, Service)
    requires Key(Service, c.sshService) !in s.objects && Key(Service, c.service) !in s.objects
    ensures Ready(c, s, 3, true)
  {
  }

  lemma NoneSelectedStays(c: Config, s: View, s': View, kind: Kind, n: nat)
    requires Less(c, s, s') && Selectable(c, kind, n)
    ensures NoneSelected(c, s, kind) ==> NoneSelected(c, s', kind)
  {
    SelectedBefore(c, s, s', kind, n);
  }

  ghost predicate NoFilters(c: Config, s: View) {
    forall k :: k in s.objects && k.kind == Filter ==> !Mine(c, k, s.objects[k])
  }

  lemma FiltersBefore(c: Config, s: View, s': View)
    requires Less(c, s, s')
    ensures NoFilters(c, s) ==> NoFilters(c, s')
  {
    if NoFilters(c, s) {
      forall k | k in s'.objects && k.kind == Filter
        ensures Mine(c, k, s'.objects[k]) ==> k in s.objects && Mine(c, k, s.objects[k])
      {
        if Mine(c, k, s'.objects[k]) {
          SameMine(c, k, s.objects[k], s'.objects[k]);
        }
      }
    }
  }

  lemma FilterKeys(c: Config)
    requires c.mtls
    ensures Named(c, Key(Filter, c.webShellFilter), 2)
    ensures c.mappingDomain ==> Selectable(c, Filter, 2)
  {
  }

  lemma FiltersMean(c: Config, s: View)
    requires c.mtls
    ensures NoFilters(c, s) ==> Key(Filter, c.webShellFilter) !in s.objects
    ensures NoFilters(c, s) && c.mappingDomain ==> NoneSelected(c, s, Filter)
  {
  }

  lemma FiltersGone(c: Config, s: View)
    ensures Key(Filter, c.webShellFilter) !in s.objects && (c.mappingDomain ==> NoneSelected(c, s, Filter)) ==>
              NoFilters(c, s)
  {
  }

  /** The names and selectors of the stages. */
  lemma Keys(c: Config)
    ensures Named(c, Key(RoleBinding, c.binding), 0)
    ensures Named(c, Key(Ingress, c.webShellIngress), 1) && Selectable(c, Ingress, 1)
    ensures Selectable(c, Policy, 2) && Selectable(c, Service, 2)
    ensures Named(c, Key(Service, c.sshService), 2) && Named(c, Key(Service, c.service), 2)
    ensures Named(c, Key(StatefulSet, c.statefulSet), 3)
    ensures Named(c, Key(Policy, c.networkPolicy), 4) && Named(c, Key(Account, c.account), 4)
  {
  }

  lemma NothingMeans(c: Config, s: View)
    ensures Nothing(c, s, true) ==>
              && Key(RoleBinding, c.binding) !in s.objects && Key(Ingress, c.webShellIngress) !in s.objects
              && NoneSelected(c, s, Ingress) && NoneSelected(c, s, Policy) && NoneSelected(c, s, Service)
              && Key(Service, c.sshService) !in s.objects && Key(Service, c.service) !in s.objects
              && Key(StatefulSet, c.statefulSet) !in s.objects && Key(Policy, c.networkPolicy) !in s.objects
              && Key(Account, c.account) !in s.objects && NoFilters(c, s)
              && (forall n :: n in c.configMaps ==> Key(ConfigMap, n) !in s.objects)
              && (forall n :: n in c.secrets ==> Key(Secret, n) !in s.objects)
              && (!c.homeBound ==> Key(Claim, c.homeClaim) !in s.objects)
              && (!c.scratchBound ==> Key(Claim, c.scratchClaim) !in s.objects)
  {
  }

  lemma NothingStays(c: Config, s: View, s': View)
    requires Less(c, s, s')
    ensures forall ns :: Nothing(c, s, ns) ==> Nothing(c, s', ns)
  {
    forall ns | Nothing(c, s, ns) ensures Nothing(c, s', ns) {
      MineBefore(c, s, s');
    }
  }

  lemma MineBefore(c: Config, s: View, s': View)
    requires Less(c, s, s')
    ensures forall k :: k in s'.objects && Mine(c, k, s'.objects[k]) ==> k in s.objects && Mine(c, k, s.objects[k])
  {
    forall k | k in s'.objects && Mine(c, k, s'.objects[k]) ensures k in s.objects && Mine(c, k, s.objects[k]) {
      SameMine(c, k, s.objects[k], s'.objects[k]);
    }
  }

  lemma RoutesGone(c: Config, s: View)
    requires Ready(c, s, 1, true) && Key(Ingress, c.webShellIngress) !in s.objects && NoneSelected(c, s, Ingress)
    ensures Ready(c, s, 2, true)
  {
  }

  lemma MovesIf(c: Config, s: View, t: View, u: View, b: bool)
    requires Less(c, s, t) && Less(c, t, u) && (b ==> Moves(c, t, u))
    ensures b ==> Moves(c, s, u)
  {
    if b {
      MovesOn(c, s, t, u);
    }
  }

  lemma MovesEither(c: Config, s: View, t: View, u: View, a: bool, b: bool)
    requires Less(c, s, t) && Less(c, t, u) && (a ==> Moves(c, s, t)) && (b ==> Moves(c, t, u))
    ensures a || b ==> Moves(c, s, u)
  {
    if a || b {
      MovesOn(c, s, t, u);
    }
  }

  lemma SelectedMine(c: Config, k: Key, o: Object, n: nat)
    requires Selectable(c, k.kind, n) && Selected(c, o)
    ensures Mine(c, k, o) && Stage(c, k, o) == n
  {
    assert k == Key(k.kind, k.name);
  }

  lemma NamedStage(c: Config, s: View, k: Key, n: nat, namespaced: bool)
    requires Named(c, k, n) && Ready(c, s, n, namespaced) && Relevant(namespaced, k) && k in s.objects
    ensures Mine(c, k, s.objects[k]) && Stage(c, k, s.objects[k]) == n
  {
  }

  lemma SettleLess(c: Config, s: View, s': View)
    requires Settles(c, s, s')
    ensures Less(c, s, s') && WellFormed(s')
  {
  }

  lemma StillDeleting(c: Config, s: View, s': View, k: Key)
    requires Less(c, s, s') && k in s.objects && s.objects[k].deleting
    ensures k in s'.objects && Mine(c, k, s'.objects[k]) ==> s'.objects[k].deleting
  {
  }

  /** The UID that was read names the object that was read. */
  lemma SameObject(c: Config, read: View, s: View, k: Key)
    requires WellFormed(read) && Less(c, read, s) && k in read.objects && k in s.objects
    requires read.objects[k].uid.Some? && s.objects[k].uid == read.objects[k].uid
    ensures s.objects[k] == read.objects[k].(deleting := s.objects[k].deleting)
  {
  }

  lemma AllowedNow(c: Config, s: View, k: Key, o: Object, n: nat, namespaced: bool)
    requires k in s.objects && s.objects[k] == o && !o.deleting && o.uid.Some? && Owned(c, o)
    requires Mine(c, k, o) && Stage(c, k, o) == n && Relevant(namespaced, k) && Ready(c, s, n, namespaced)
    ensures Allowed(c, Entry(k, s, namespaced))
  {
  }

  lemma AskedLess(c: Config, s: View, s': View, k: Key)
    requires k in s.objects
    requires s' == s.(objects := s.objects - {k})
             || s' == s.(objects := s.objects[k := s.objects[k].(deleting := true)])
    ensures Less(c, s, s') && (WellFormed(s) ==> WellFormed(s'))
  {
  }

  // --------------------------------------------------------------- what the calls add up to

  /** A summary of what an allowed deletion means, stage by stage. */
  lemma DeletionsAreStaged(c: Config, e: Entry)
    requires Allowed(c, e)
    ensures Owned(c, e.at.objects[e.key])
    ensures e.key.kind == Claim ==>
              && ((e.key.name == c.homeClaim && !c.homeBound) || (e.key.name == c.scratchClaim && !c.scratchBound))
              && NoPods(c, e.at) && Key(StatefulSet, c.statefulSet) !in e.at.objects
    ensures e.key.kind == Filter && e.namespaced ==>
              && Key(Ingress, c.webShellIngress) !in e.at.objects
              && NoneSelected(c, e.at, Ingress)
    ensures e.key.kind == StatefulSet ==>
              && Key(Service, c.service) !in e.at.objects && Key(Service, c.sshService) !in e.at.objects
              && NoneSelected(c, e.at, Service) && NoneSelected(c, e.at, Policy) && NoFilters(c, e.at)
  {
  }

  /** One call, then Kubernetes: a pending deletion finishes, and a Pod that blocks goes away. */
  ghost predicate Round(c: Config, s: View, s': View, r: Progress) {
    exists t ::
      && Less(c, s, t) && Less(c, t, s')
      && (r == DeletionRequested ==> Moves(c, s, t))
      && (r == Terminating ==> Pods(c, s) != {})
      && (Pending(c, t) ==> Left(c, s') != Left(c, t))
      && (r == Terminating && Pods(c, t) != {} ==> Pods(c, s') != Pods(c, t))
  }

  lemma RoundWorks(c: Config, s: View, s': View, r: Progress)
    requires Round(c, s, s', r) && r != Gone
    ensures Work(c, s') < Work(c, s)
  {
    var t :|
      && Less(c, s, t) && Less(c, t, s')
      && (r == DeletionRequested ==> Moves(c, s, t))
      && (r == Terminating ==> Pods(c, s) != {})
      && (Pending(c, t) ==> Left(c, s') != Left(c, t))
      && (r == Terminating && Pods(c, t) != {} ==> Pods(c, s') != Pods(c, t));
    hide Less, Left, Live, Pods, Pending, Work;
    WorkShrinks(c, s, t);
    WorkShrinks(c, t, s');
  }

  /** Rounds that do not answer Gone cannot outnumber the work there was to begin with. */
  lemma {:induction false} DeletionConverges(c: Config, ss: seq<View>, rs: seq<Progress>)
    requires |ss| == |rs| + 1
    requires forall i :: 0 <= i < |rs| ==> Round(c, ss[i], ss[i + 1], rs[i]) && rs[i] != Gone
    ensures |rs| + Work(c, ss[|rs|]) <= Work(c, ss[0])
    decreases |rs|
  {
    if |rs| > 0 {
      var n := |rs| - 1;
      assert Round(c, ss[n], ss[n + 1], rs[n]);
      RoundWorks(c, ss[n], ss[n + 1], rs[n]);
      DeletionConverges(c, ss[..n + 1], rs[..n]);
    }
  }
}
