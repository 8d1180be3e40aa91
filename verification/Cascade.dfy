/**
 The three-scope cascade: which lists of items resolve, and to what. The narrowest
 scope wins each destination, except that nothing may override a locked item of
 the organization.
 */
module Cascade {
  import opened Options
  import opened Injections
  import opened Sequences

  datatype Fault =
    | EmptyKey
    | LockOutsideOrganization(key: string, scope: Scope)
    | DuplicateKey(key: string, scope: Scope)
    | DuplicateDestination(destination: Destination, scope: Scope)
    | LockedOverride(destination: Destination, scope: Scope)

  datatype Result<T> = Success(value: T) | Failure(fault: Fault)

  // ------------------------------------------------------------------- what is acceptable

  predicate DistinctKeys(items: seq<Item>) {
    forall i, j :: 0 <= i < j < |items| ==> items[i].key != items[j].key
  }

  predicate DistinctDestinations(items: seq<Item>) {
    forall i, j :: 0 <= i < j < |items| ==> DestinationOf(items[i]) != DestinationOf(items[j])
  }

  predicate ScopeOk(scope: Scope, items: seq<Item>) {
    && (forall i :: 0 <= i < |items| ==> items[i].key != "" && (items[i].locked ==> scope == Organization))
    && DistinctKeys(items) && DistinctDestinations(items)
  }

  /** No item of the narrower scope targets a locked destination. */
  predicate Respects(locks: seq<Item>, items: seq<Item>) {
    forall i, j :: 0 <= i < |locks| && 0 <= j < |items| && locks[i].locked ==>
      DestinationOf(locks[i]) != DestinationOf(items[j])
  }

  predicate Coherent(organization: seq<Item>, user: seq<Item>, workspace: seq<Item>) {
    && ScopeOk(Organization, organization) && ScopeOk(User, user) && ScopeOk(Workspace, workspace)
    && Respects(organization, user) && Respects(organization, workspace)
  }

  predicate Targets(items: seq<Item>, d: Destination) {
    exists i :: 0 <= i < |items| && DestinationOf(items[i]) == d
  }

  /** The most specific scope that targets a destination provides its item. */
  predicate Wins(organization: seq<Item>, user: seq<Item>, workspace: seq<Item>, r: Resolved) {
    var d := DestinationOf(r.item);
    match r.source
    case Workspace => r.item in workspace
    case User => r.item in user && !Targets(workspace, d)
    case Organization => r.item in organization && !Targets(workspace, d) && !Targets(user, d)
  }

  function Destinations(rs: seq<Resolved>): seq<Destination> {
    seq(|rs|, i requires 0 <= i < |rs| => DestinationOf(rs[i].item))
  }

  /** What a successful resolution is. */
  ghost predicate Resolution(organization: seq<Item>, user: seq<Item>, workspace: seq<Item>, rs: seq<Resolved>) {
    Ordered(Destinations(rs)) && forall r :: r in rs <==> Wins(organization, user, workspace, r)
  }

  // --------------------------------------------------------------------------- one scope

  type Table = map<Destination, Resolved>

  /** Every entry is filed under its own destination. */
  predicate Filed(t: Table) { forall d :: d in t ==> DestinationOf(t[d].item) == d }

  /** The table after a whole scope: its items replace what was there. */
  ghost predicate Merged(t: Table, scope: Scope, items: seq<Item>, t': Table) {
    && Filed(t')
    && (forall d :: d in t' <==> d in t || Targets(items, d))
    && (forall i :: 0 <= i < |items| ==>
          DestinationOf(items[i]) in t' && t'[DestinationOf(items[i])] == Resolved(scope, items[i]))
    && (forall d :: d in t && !Targets(items, d) ==> t'[d] == t[d])
  }

  /** No item targets an entry of the table that is locked. */
  predicate Free(t: Table, items: seq<Item>) {
    forall i :: 0 <= i < |items| ==>
      DestinationOf(items[i]) in t ==> !t[DestinationOf(items[i])].item.locked
  }

  /** The fault names something that is wrong with these items. */
  ghost predicate Explains(f: Fault, t: Table, scope: Scope, items: seq<Item>) {
    match f
    case EmptyKey => exists i :: 0 <= i < |items| && items[i].key == ""
    case LockOutsideOrganization(key, s) =>
      s == scope != Organization && exists i :: 0 <= i < |items| && items[i].key == key && items[i].locked
    case DuplicateKey(key, s) =>
      s == scope && exists i, j :: 0 <= i < j < |items| && items[i].key == items[j].key == key
    case DuplicateDestination(d, s) =>
      s == scope && exists i, j :: 0 <= i < j < |items| && DestinationOf(items[i]) == DestinationOf(items[j]) == d
    case LockedOverride(d, s) => s == scope && d in t && t[d].item.locked && Targets(items, d)
  }

  lemma MergedStep(t: Table, scope: Scope, items: seq<Item>, i: nat, u: Table)
    requires i < |items| && Merged(t, scope, items[..i], u) && DistinctDestinations(items[..i + 1])
    ensures Merged(t, scope, items[..i + 1], u[DestinationOf(items[i]) := Resolved(scope, items[i])])
  {
    var d := DestinationOf(items[i]);
    var u' := u[d := Resolved(scope, items[i])];
    var old', new' := items[..i], items[..i + 1];
    assert new' == old' + [items[i]];
    forall x ensures Targets(new', x) <==> Targets(old', x) || x == d {
      TargetsAppend(old', items[i], x);
    }
    forall j | 0 <= j < |new'| ensures u'[DestinationOf(new'[j])] == Resolved(scope, new'[j]) {
      if j < i {
        assert new'[j] == old'[j] && DestinationOf(new'[j]) != DestinationOf(new'[i]);
      }
    }
  }

  lemma TargetsAppend(items: seq<Item>, item: Item, d: Destination)
    ensures Targets(items + [item], d) <==> Targets(items, d) || d == DestinationOf(item)
  {
    if Targets(items, d) {
      var i :| 0 <= i < |items| && DestinationOf(items[i]) == d;
      assert DestinationOf((items + [item])[i]) == d;
    }
    assert (items + [item])[|items|] == item;
  }

  /**
   `apply_scope`: succeeds exactly when the scope is in order and overrides nothing
   locked; then the table is the old one with the scope's items laid over it.
   */
  method ApplyScope(t: Table, scope: Scope, items: seq<Item>) returns (r: Result<Table>)
    requires Filed(t)
    ensures r.Success? <==> ScopeOk(scope, items) && Free(t, items)
    ensures r.Success? ==> Merged(t, scope, items, r.value)
    ensures r.Failure? ==> Explains(r.fault, t, scope, items)
  {
    hide Merged, Targets, ScopeOk, Free, Explains;
    var resolved := t;
    var seenKeys: set<string>, seenDestinations: set<Destination> := {}, {};
    MergedNone(t, scope, items);
    for i := 0 to |items|
      invariant ScopeOk(scope, items[..i]) && Free(t, items[..i])
      invariant Merged(t, scope, items[..i], resolved)
      invariant forall k :: k in seenKeys <==> exists j :: 0 <= j < i && items[j].key == k
      invariant forall d :: d in seenDestinations <==> Targets(items[..i], d)
    {
      var item := items[i];
      var d := DestinationOf(item);
      if item.key == "" {
        BadItem(scope, items, i, t);
        return Failure(EmptyKey);
      }
      if item.locked && scope != Organization {
        BadItem(scope, items, i, t);
        return Failure(LockOutsideOrganization(item.key, scope));
      }
      if item.key in seenKeys {
        SameKey(scope, items, i, t);
        return Failure(DuplicateKey(item.key, scope));
      }
      seenKeys := seenKeys + {item.key};
      if d in seenDestinations {
        SameDestination(scope, items, i, t);
        return Failure(DuplicateDestination(d, scope));
      }
      seenDestinations := seenDestinations + {d};
      OldEntry(t, scope, items[..i], resolved, d);
      if d in resolved && resolved[d].item.locked {
        Overrides(scope, items, i, t);
        return Failure(LockedOverride(d, scope));
      }
      ScopeStep(scope, items, i, t);
      MergedStep(t, scope, items, i, resolved);
      forall x ensures Targets(items[..i + 1], x) <==> Targets(items[..i], x) || x == d {
        assert items[..i + 1] == items[..i] + [item];
        TargetsAppend(items[..i], item, x);
      }
      resolved := resolved[d := Resolved(scope, item)];
    }
    assert items[..|items|] == items;
    return Success(resolved);
  }

  lemma BadItem(scope: Scope, items: seq<Item>, i: nat, t: Table)
    requires i < |items| && (items[i].key == "" || (items[i].locked && scope != Organization))
    ensures !ScopeOk(scope, items)
    ensures items[i].key == "" ==> Explains(EmptyKey, t, scope, items)
    ensures items[i].locked && scope != Organization ==>
              Explains(LockOutsideOrganization(items[i].key, scope), t, scope, items)
  {
  }

  lemma SameKey(scope: Scope, items: seq<Item>, i: nat, t: Table)
    requires i < |items| && exists j :: 0 <= j < i && items[j].key == items[i].key
    ensures !ScopeOk(scope, items) && Explains(DuplicateKey(items[i].key, scope), t, scope, items)
  {
  }

  lemma Overrides(scope: Scope, items: seq<Item>, i: nat, t: Table)
    requires i < |items| && DestinationOf(items[i]) in t && t[DestinationOf(items[i])].item.locked
    ensures !Free(t, items) && Explains(LockedOverride(DestinationOf(items[i]), scope), t, scope, items)
  {
    assert Targets(items, DestinationOf(items[i]));
  }

  lemma MergedNone(t: Table, scope: Scope, items: seq<Item>)
    requires Filed(t)
    ensures Merged(t, scope, items[..0], t) && ScopeOk(scope, items[..0]) && Free(t, items[..0])
    ensures forall d :: !Targets(items[..0], d)
  {
    assert items[..0] == [];
  }

  lemma SameDestination(scope: Scope, items: seq<Item>, i: nat, t: Table)
    requires i < |items| && Targets(items[..i], DestinationOf(items[i]))
    ensures !ScopeOk(scope, items) && Explains(DuplicateDestination(DestinationOf(items[i]), scope), t, scope, items)
  {
    var j :| 0 <= j < |items[..i]| && DestinationOf(items[..i][j]) == DestinationOf(items[i]);
    assert DestinationOf(items[j]) == DestinationOf(items[i]);
  }

  /** An entry that this scope has not written is the table's own. */
  lemma OldEntry(t: Table, scope: Scope, items: seq<Item>, u: Table, d: Destination)
    requires Merged(t, scope, items, u) && !Targets(items, d)
    ensures d in u <==> d in t
    ensures d in t ==> u[d] == t[d]
  {
  }

  lemma ScopeStep(scope: Scope, items: seq<Item>, i: nat, t: Table)
    requires i < |items| && ScopeOk(scope, items[..i]) && Free(t, items[..i]) && items[i].key != ""
    requires DestinationOf(items[i]) in t ==> !t[DestinationOf(items[i])].item.locked
    requires items[i].locked ==> scope == Organization
    requires forall j :: 0 <= j < i ==> items[j].key != items[i].key
    requires !Targets(items[..i], DestinationOf(items[i]))
    ensures ScopeOk(scope, items[..i + 1]) && Free(t, items[..i + 1]) && DistinctDestinations(items[..i + 1])
  {
    var s := items[..i + 1];
    forall a, b | 0 <= a < b < |s| ensures s[a].key != s[b].key && DestinationOf(s[a]) != DestinationOf(s[b]) {
      assert items[..i][a] == s[a];
      if b < i {
        assert items[..i][b] == s[b];
      }
    }
    forall a | 0 <= a < |s| ensures s[a].key != "" && (s[a].locked ==> scope == Organization) {
      if a < i {
        assert items[..i][a] == s[a];
      }
    }
  }

  // ------------------------------------------------------------------------- three scopes

  /** The values of the table in the order of their destinations. */
  method IntoValues(t: Table) returns (rs: seq<Resolved>)
    requires Filed(t)
    ensures Ordered(Destinations(rs)) && forall r :: r in rs <==> exists d :: d in t && t[d] == r
  {
    var keys: seq<Destination> := [];
    var todo := t.Keys;
    while todo != {}
      invariant Ordered(keys) && todo <= t.Keys
      invariant forall d :: d in keys <==> d in t && d !in todo
      decreases |todo|
    {
      var d :| d in todo;
      todo := todo - {d};
      InsertAdds(d, keys);
      InsertOrders(d, keys);
      keys := Insert(d, keys);
    }
    rs := seq(|keys|, i requires 0 <= i < |keys| => assert keys[i] in keys; t[keys[i]]);
    assert Destinations(rs) == keys by {
      forall i | 0 <= i < |keys| ensures DestinationOf(rs[i].item) == keys[i] {
        assert keys[i] in keys;
      }
    }
    forall d | d in t ensures t[d] in rs {
      assert d in keys;
      var i :| 0 <= i < |keys| && keys[i] == d;
      assert rs[i] == t[d];
    }
  }

  /**
   `resolve_injections`: succeeds exactly on coherent lists, and then lists every
   destination once, in order, with the item of the most specific scope.
   */
  method Resolve(organization: seq<Item>, user: seq<Item>, workspace: seq<Item>) returns (r: Result<seq<Resolved>>)
    ensures r.Success? <==> Coherent(organization, user, workspace)
    ensures r.Success? ==> Resolution(organization, user, workspace, r.value)
  {
    hide Merged, ScopeOk, Explains, Respects, Free, Wins;
    NothingTaken(organization);
    var t := ApplyScope(map[], Organization, organization);
    if t.Failure? {
      return Failure(t.fault);
    }
    var t0 := t.value;
    LocksOf(organization, user, t0);
    MergedFiled(map[], Organization, organization, t0);
    t := ApplyScope(t0, User, user);
    if t.Failure? {
      return Failure(t.fault);
    }
    var t1 := t.value;
    LocksPersist(organization, user, workspace, t0, t1);
    MergedFiled(t0, User, user, t1);
    t := ApplyScope(t1, Workspace, workspace);
    if t.Failure? {
      return Failure(t.fault);
    }
    MergedFiled(t1, Workspace, workspace, t.value);
    var rs := IntoValues(t.value);
    forall x ensures x in rs <==> Wins(organization, user, workspace, x) {
      Winner(organization, user, workspace, t0, t1, t.value, x);
    }
    return Success(rs);
  }

  lemma NothingTaken(items: seq<Item>)
    ensures Filed(map[]) && Free(map[], items)
  {
  }

  lemma MergedFiled(t: Table, scope: Scope, items: seq<Item>, t': Table)
    requires Merged(t, scope, items, t')
    ensures Filed(t')
  {
  }

  /** After the organization's scope, the locked entries are its locked items. */
  lemma LocksOf(organization: seq<Item>, items: seq<Item>, t: Table)
    requires Merged(map[], Organization, organization, t)
    ensures Free(t, items) <==> Respects(organization, items)
  {
    if Free(t, items) {
      forall i, j | 0 <= i < |organization| && 0 <= j < |items| && organization[i].locked
        ensures DestinationOf(organization[i]) != DestinationOf(items[j])
      {
        assert t[DestinationOf(organization[i])] == Resolved(Organization, organization[i]);
      }
    } else {
      var j :| 0 <= j < |items| && DestinationOf(items[j]) in t && t[DestinationOf(items[j])].item.locked;
      assert Targets(organization, DestinationOf(items[j]));
      var i :| 0 <= i < |organization| && DestinationOf(organization[i]) == DestinationOf(items[j]);
      assert t[DestinationOf(organization[i])] == Resolved(Organization, organization[i]);
    }
  }

  /** The user's scope neither adds nor removes a lock. */
  lemma LocksPersist(organization: seq<Item>, user: seq<Item>, items: seq<Item>, t0: Table, t1: Table)
    requires Merged(map[], Organization, organization, t0) && Merged(t0, User, user, t1)
    requires ScopeOk(User, user) && Respects(organization, user)
    ensures Free(t1, items) <==> Respects(organization, items)
  {
    LocksOf(organization, items, t0);
    forall j | 0 <= j < |items|
      ensures DestinationOf(items[j]) in t1 && t1[DestinationOf(items[j])].item.locked <==>
              DestinationOf(items[j]) in t0 && t0[DestinationOf(items[j])].item.locked
    {
      SameLock(organization, user, t0, t1, DestinationOf(items[j]));
    }
  }

  lemma SameLock(organization: seq<Item>, user: seq<Item>, t0: Table, t1: Table, d: Destination)
    requires Merged(map[], Organization, organization, t0) && Merged(t0, User, user, t1)
    requires ScopeOk(User, user) && Respects(organization, user)
    ensures d in t1 && t1[d].item.locked <==> d in t0 && t0[d].item.locked
  {
    if Targets(user, d) {
      var i :| 0 <= i < |user| && DestinationOf(user[i]) == d;
      assert t1[d] == Resolved(User, user[i]) && !user[i].locked;
      if d in t0 {
        assert Targets(organization, d);
        var j :| 0 <= j < |organization| && DestinationOf(organization[j]) == d;
        assert t0[d] == Resolved(Organization, organization[j]);
      }
    }
  }

  /** The entry at a destination after all scopes. */
  lemma Winner(organization: seq<Item>, user: seq<Item>, workspace: seq<Item>,
               t0: Table, t1: Table, t2: Table, x: Resolved)
    requires Merged(map[], Organization, organization, t0)
    requires Merged(t0, User, user, t1) && Merged(t1, Workspace, workspace, t2)
    ensures (exists d :: d in t2 && t2[d] == x) <==> Wins(organization, user, workspace, x)
  {
    var d := DestinationOf(x.item);
    assert (exists e :: e in t2 && t2[e] == x) <==> d in t2 && t2[d] == x;
    EntryOf(t1, Workspace, workspace, t2, d, x);
    EntryOf(t0, User, user, t1, d, x);
    EntryOf(map[], Organization, organization, t0, d, x);
  }

  lemma EntryOf(t: Table, scope: Scope, items: seq<Item>, t': Table, d: Destination, x: Resolved)
    requires Merged(t, scope, items, t') && d == DestinationOf(x.item)
    ensures Targets(items, d) ==> (d in t' && t'[d] == x <==> x.source == scope && x.item in items)
    ensures !Targets(items, d) ==> (d in t' && t'[d] == x <==> d in t && t[d] == x) && x.item !in items
  {
    if Targets(items, d) {
      var i :| 0 <= i < |items| && DestinationOf(items[i]) == d;
      assert t'[d] == Resolved(scope, items[i]);
      if x.item in items {
        var j :| 0 <= j < |items| && items[j] == x.item;
        assert t'[d] == Resolved(scope, items[j]);
      }
    }
  }

  // ------------------------------------------------------------------- order independence

  lemma {:induction false} ResolutionUnique(organization: seq<Item>, user: seq<Item>, workspace: seq<Item>,
                                            a: seq<Resolved>, b: seq<Resolved>)
    requires Resolution(organization, user, workspace, a) && Resolution(organization, user, workspace, b)
    requires Coherent(organization, user, workspace)
    ensures a == b
  {
    forall d ensures d in Destinations(a) <==> d in Destinations(b) {
      if d in Destinations(a) {
        var i :| 0 <= i < |a| && Destinations(a)[i] == d;
        assert a[i] in a && a[i] in b;
        var j :| 0 <= j < |b| && b[j] == a[i];
        assert Destinations(b)[j] == d;
      }
      if d in Destinations(b) {
        var i :| 0 <= i < |b| && Destinations(b)[i] == d;
        assert b[i] in b && b[i] in a;
        var j :| 0 <= j < |a| && a[j] == b[i];
        assert Destinations(a)[j] == d;
      }
    }
    OrderedUnique(Destinations(a), Destinations(b));
    assert |a| == |Destinations(a)| == |b|;
    forall i | 0 <= i < |a| ensures a[i] == b[i] {
      assert Destinations(a)[i] == Destinations(b)[i];
      assert a[i] in a && b[i] in b;
      OneWinner(organization, user, workspace, a[i], b[i]);
    }
  }

  lemma OneWinner(organization: seq<Item>, user: seq<Item>, workspace: seq<Item>, x: Resolved, y: Resolved)
    requires Coherent(organization, user, workspace)
    requires Wins(organization, user, workspace, x) && Wins(organization, user, workspace, y)
    requires DestinationOf(x.item) == DestinationOf(y.item)
    ensures x == y
  {
    InList(organization, x.item, y.item);
    InList(user, x.item, y.item);
    InList(workspace, x.item, y.item);
  }

  lemma InList(items: seq<Item>, x: Item, y: Item)
    requires DistinctDestinations(items) && DestinationOf(x) == DestinationOf(y)
    ensures x in items ==> Targets(items, DestinationOf(x))
    ensures x in items && y in items ==> x == y
  {
    if x in items {
      var i :| 0 <= i < |items| && items[i] == x;
      assert DestinationOf(items[i]) == DestinationOf(x);
      if y in items {
        var j :| 0 <= j < |items| && items[j] == y;
      }
    }
  }

  /** Only which items a scope has matters, not their order. */
  lemma OrderDoesNotMatter(
    organization: seq<Item>, user: seq<Item>, workspace: seq<Item>,
    organization': seq<Item>, user': seq<Item>, workspace': seq<Item>, rs: seq<Resolved>)
    requires multiset(organization) == multiset(organization') && multiset(user) == multiset(user')
    requires multiset(workspace) == multiset(workspace')
    ensures Coherent(organization, user, workspace) <==> Coherent(organization', user', workspace')
    ensures Resolution(organization, user, workspace, rs) <==> Resolution(organization', user', workspace', rs)
  {
    PermutationKeeps(organization, organization');
    PermutationKeeps(user, user');
    PermutationKeeps(workspace, workspace');
    SameScope(Organization, organization, organization');
    SameScope(User, user, user');
    SameScope(Workspace, workspace, workspace');
    forall x ensures Wins(organization, user, workspace, x) <==> Wins(organization', user', workspace', x) {
      SameTargets(user, user', DestinationOf(x.item));
      SameTargets(workspace, workspace', DestinationOf(x.item));
    }
    SameRespects(organization, user, organization', user');
    SameRespects(organization, workspace, organization', workspace');
  }

  lemma SameTargets(a: seq<Item>, b: seq<Item>, d: Destination)
    requires forall x :: x in a <==> x in b
    ensures Targets(a, d) <==> Targets(b, d)
  {
    if Targets(a, d) {
      var i :| 0 <= i < |a| && DestinationOf(a[i]) == d;
      assert a[i] in b;
    }
    if Targets(b, d) {
      var i :| 0 <= i < |b| && DestinationOf(b[i]) == d;
      assert b[i] in a;
    }
  }

  lemma SameRespects(l: seq<Item>, a: seq<Item>, l': seq<Item>, a': seq<Item>)
    requires (forall x :: x in l <==> x in l') && (forall x :: x in a <==> x in a')
    ensures Respects(l, a) <==> Respects(l', a')
  {
    assert Respects(l, a) <==> forall x, y :: x in l && y in a && x.locked ==> DestinationOf(x) != DestinationOf(y);
    assert Respects(l', a') <==> forall x, y :: x in l' && y in a' && x.locked ==> DestinationOf(x) != DestinationOf(y);
  }

  lemma SameScope(scope: Scope, a: seq<Item>, b: seq<Item>)
    requires multiset(a) == multiset(b)
    ensures ScopeOk(scope, a) <==> ScopeOk(scope, b)
  {
    hide ScopeOk;
    if ScopeOk(scope, a) {
      ScopeKept(scope, a, b);
    }
    if ScopeOk(scope, b) {
      ScopeKept(scope, b, a);
    }
  }

  lemma ScopeKept(scope: Scope, a: seq<Item>, b: seq<Item>)
    requires multiset(a) == multiset(b) && ScopeOk(scope, a)
    ensures ScopeOk(scope, b)
  {
    PermutationKeeps(a, b);
    forall i, j | 0 <= i < j < |b| ensures b[i].key != b[j].key && DestinationOf(b[i]) != DestinationOf(b[j]) {
      assert b[i] in a && b[j] in a;
      var k, l :| 0 <= k < |a| && 0 <= l < |a| && a[k] == b[i] && a[l] == b[j];
      assert k < l || l < k;
    }
    forall i | 0 <= i < |b| ensures b[i].key != "" && (b[i].locked ==> scope == Organization) {
      assert b[i] in a;
    }
  }
}
