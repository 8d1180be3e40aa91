/** Which items reach the cascade: template and label matching, then references. */
module Selection {
  import opened Options
  import opened Injections
  import opened Cascade

  /** What an item's selectors are compared with; identifiers as they are printed. */
  datatype Context = Context(
    workspaceId: Option<string>, organizationId: string, ownerId: string, templateId: Option<string>,
    image: string, accessMode: string)

  function Label(c: Context, key: string): Option<string> {
    if key == "workspace_id" then c.workspaceId
    else if key == "organization_id" then Some(c.organizationId)
    else if key == "owner_id" then Some(c.ownerId)
    else if key == "template_id" then c.templateId
    else if key == "image" then Some(c.image)
    else if key == "access_mode" then Some(c.accessMode)
    else None
  }

  /** `injection_matches`. */
  predicate Matches(i: Item, c: Context) {
    && (i.templateSelector.None? || i.templateSelector == Some("*") || i.templateSelector == c.templateId)
    && forall k :: k in i.labels ==> Label(c, k) == Some(i.labels[k])
  }

  function Filter(items: seq<Item>, keep: Item -> bool): seq<Item> {
    if items == [] then []
    else (if keep(items[0]) then [items[0]] else []) + Filter(items[1..], keep)
  }

  /** `select_injections`. */
  function Select(items: seq<Item>, c: Context): seq<Item> { Filter(items, i => Matches(i, c)) }

  /** `filter_injection_refs`: no list of references keeps everything. */
  function FilterRefs(items: seq<Item>, refs: Option<seq<string>>, includeLocked: bool): seq<Item> {
    if refs.None? then items
    else Filter(items, (i: Item) => (includeLocked && i.locked) || i.key in refs.value)
  }

  lemma {:induction false} FilterKeeps(items: seq<Item>, keep: Item -> bool)
    ensures forall x :: x in Filter(items, keep) <==> x in items && keep(x)
  {
    if items != [] {
      FilterKeeps(items[1..], keep);
      assert items == [items[0]] + items[1..];
    }
  }

  /** A sublist takes its elements from the list in the list's order. */
  ghost predicate Sublist(a: seq<Item>, b: seq<Item>) {
    if a == [] then true
    else if b == [] then false
    else if a[0] == b[0] && Sublist(a[1..], b[1..]) then true
    else Sublist(a, b[1..])
  }

  lemma {:induction false} SublistRefl(a: seq<Item>)
    ensures Sublist(a, a)
  {
    if a != [] {
      SublistRefl(a[1..]);
    }
  }

  lemma {:induction false} SublistLonger(a: seq<Item>, b: seq<Item>)
    requires b != [] && Sublist(a, b[1..])
    ensures Sublist(a, b)
  {
  }

  lemma {:induction false} FilterSublist(items: seq<Item>, keep: Item -> bool)
    ensures Sublist(Filter(items, keep), items)
  {
    if items != [] {
      FilterSublist(items[1..], keep);
      var f := Filter(items, keep);
      if keep(items[0]) {
        assert f[1..] == Filter(items[1..], keep);
      } else {
        assert f == Filter(items[1..], keep);
        SublistLonger(f, items);
      }
    }
  }

  /** Every element of a sublist has its own place in the list, in order. */
  lemma {:induction false} Places(a: seq<Item>, b: seq<Item>) returns (at: seq<nat>)
    requires Sublist(a, b)
    ensures |at| == |a| && (forall i :: 0 <= i < |a| ==> at[i] < |b| && b[at[i]] == a[i])
    ensures forall i, j :: 0 <= i < j < |a| ==> at[i] < at[j]
    decreases |b|
  {
    if a == [] {
      at := [];
    } else if a[0] == b[0] && Sublist(a[1..], b[1..]) {
      var rest := Places(a[1..], b[1..]);
      at := [0] + seq(|rest|, i requires 0 <= i < |rest| => rest[i] + 1);
      forall i | 0 <= i < |a| ensures at[i] < |b| && b[at[i]] == a[i] {
        if i > 0 {
          assert a[1..][i - 1] == a[i];
        }
      }
    } else {
      var rest := Places(a, b[1..]);
      at := seq(|rest|, i requires 0 <= i < |rest| => rest[i] + 1);
    }
  }

  lemma SublistScope(scope: Scope, a: seq<Item>, b: seq<Item>)
    requires Sublist(a, b) && ScopeOk(scope, b)
    ensures ScopeOk(scope, a)
  {
    var at := Places(a, b);
    forall i, j | 0 <= i < j < |a| ensures a[i].key != a[j].key && DestinationOf(a[i]) != DestinationOf(a[j]) {
      assert b[at[i]] == a[i] && b[at[j]] == a[j] && at[i] < at[j];
    }
    forall i | 0 <= i < |a| ensures a[i].key != "" && (a[i].locked ==> scope == Organization) {
      assert b[at[i]] == a[i];
    }
  }

  lemma SublistRespects(l: seq<Item>, a: seq<Item>, l': seq<Item>, a': seq<Item>)
    requires Sublist(l', l) && Sublist(a', a) && Respects(l, a)
    ensures Respects(l', a')
  {
    var at := Places(l', l);
    var bt := Places(a', a);
    forall i, j | 0 <= i < |l'| && 0 <= j < |a'| && l'[i].locked
      ensures DestinationOf(l'[i]) != DestinationOf(a'[j])
    {
      assert l[at[i]] == l'[i] && a[bt[j]] == a'[j];
    }
  }

  /** Leaving items out never makes a resolution fail. */
  lemma CoherenceIsDownwardClosed(
    organization: seq<Item>, user: seq<Item>, workspace: seq<Item>,
    organization': seq<Item>, user': seq<Item>, workspace': seq<Item>)
    requires Sublist(organization', organization) && Sublist(user', user) && Sublist(workspace', workspace)
    requires Coherent(organization, user, workspace)
    ensures Coherent(organization', user', workspace')
  {
    SublistScope(Organization, organization', organization);
    SublistScope(User, user', user);
    SublistScope(Workspace, workspace', workspace);
    SublistRespects(organization, user, organization', user');
    SublistRespects(organization, workspace, organization', workspace');
  }

  // --------------------------------------------------------------------------- the pipeline

  lemma SelectSublist(items: seq<Item>, c: Context)
    ensures Sublist(Select(items, c), items)
  {
    FilterSublist(items, i => Matches(i, c));
  }

  lemma RefsSublist(items: seq<Item>, refs: Option<seq<string>>, includeLocked: bool)
    ensures Sublist(FilterRefs(items, refs, includeLocked), items)
  {
    if refs.None? {
      SublistRefl(items);
    } else {
      FilterSublist(items, (i: Item) => (includeLocked && i.locked) || i.key in refs.value);
    }
  }

  lemma {:induction false} SublistTrans(a: seq<Item>, b: seq<Item>, c: seq<Item>)
    requires Sublist(a, b) && Sublist(b, c)
    ensures Sublist(a, c)
    decreases |c|, |b|
  {
    if a != [] {
      if b[0] == c[0] && Sublist(b[1..], c[1..]) {
        if a[0] == b[0] && Sublist(a[1..], b[1..]) {
          SublistTrans(a[1..], b[1..], c[1..]);
        } else {
          SublistTrans(a, b[1..], c[1..]);
          SublistLonger(a, c);
        }
      } else {
        SublistTrans(a, b, c[1..]);
        SublistLonger(a, c);
      }
    }
  }

  /** The lists the cascade is given for a workspace. */
  function Chosen(items: seq<Item>, c: Context, refs: Option<seq<string>>, includeLocked: bool): seq<Item> {
    FilterRefs(Select(items, c), refs, includeLocked)
  }

  /** If everything resolves together, then whatever is selected and referenced resolves. */
  lemma SelectionNeverBreaksResolution(
    organization: seq<Item>, user: seq<Item>, workspace: seq<Item>,
    c: Context, organizationRefs: Option<seq<string>>, userRefs: Option<seq<string>>)
    requires Coherent(organization, user, workspace)
    ensures Coherent(Chosen(organization, c, organizationRefs, true), Chosen(user, c, userRefs, false),
                     Select(workspace, c))
  {
    SelectSublist(organization, c);
    SelectSublist(user, c);
    SelectSublist(workspace, c);
    RefsSublist(Select(organization, c), organizationRefs, true);
    RefsSublist(Select(user, c), userRefs, false);
    SublistTrans(Chosen(organization, c, organizationRefs, true), Select(organization, c), organization);
    SublistTrans(Chosen(user, c, userRefs, false), Select(user, c), user);
    CoherenceIsDownwardClosed(organization, user, workspace, Chosen(organization, c, organizationRefs, true),
                              Chosen(user, c, userRefs, false), Select(workspace, c));
  }

  /** No choice of references can drop or replace a locked item of the organization. */
  lemma LockedItemsAlwaysApply(
    organization: seq<Item>, user: seq<Item>, workspace: seq<Item>,
    c: Context, organizationRefs: Option<seq<string>>, userRefs: Option<seq<string>>, item: Item, rs: seq<Resolved>)
    requires item in organization && item.locked && Matches(item, c)
    requires Coherent(Chosen(organization, c, organizationRefs, true), Chosen(user, c, userRefs, false),
                      Select(workspace, c))
    requires Resolution(Chosen(organization, c, organizationRefs, true), Chosen(user, c, userRefs, false),
                        Select(workspace, c), rs)
    ensures Resolved(Organization, item) in rs
  {
    var org := Chosen(organization, c, organizationRefs, true);
    FilterKeeps(organization, i => Matches(i, c));
    RefsKeepLocked(Select(organization, c), organizationRefs, item);
    Untouched(org, Chosen(user, c, userRefs, false), item);
    Untouched(org, Select(workspace, c), item);
    assert Wins(org, Chosen(user, c, userRefs, false), Select(workspace, c), Resolved(Organization, item));
  }

  lemma RefsKeepLocked(items: seq<Item>, refs: Option<seq<string>>, item: Item)
    requires item in items && item.locked
    ensures item in FilterRefs(items, refs, true)
  {
    if refs.Some? {
      FilterKeeps(items, (i: Item) => (true && i.locked) || i.key in refs.value);
    }
  }

  lemma Untouched(locks: seq<Item>, items: seq<Item>, item: Item)
    requires Respects(locks, items) && item in locks && item.locked
    ensures !Targets(items, DestinationOf(item))
  {
    var i :| 0 <= i < |locks| && locks[i] == item;
  }

  // ----------------------------------------------------------------------- what is selected

  /** An item of a scope that takes references: matching, and referenced if there is a list of references. */
  predicate Picked(i: Item, c: Context, refs: Option<seq<string>>) {
    Matches(i, c) && (refs.None? || i.key in refs.value)
  }

  predicate Aims(items: seq<Item>, keep: Item -> bool, d: Destination) {
    exists i :: i in items && keep(i) && DestinationOf(i) == d
  }

  /**
   What reaches a workspace: its own matching items; the user's matching, referenced
   items where none of those aims; and of the organization's matching items the
   locked and the referenced, where no narrower item aims.
   */
  predicate InForce(
    organization: seq<Item>, user: seq<Item>, workspace: seq<Item>,
    c: Context, organizationRefs: Option<seq<string>>, userRefs: Option<seq<string>>, r: Resolved)
  {
    var d := DestinationOf(r.item);
    match r.source
    case Workspace => r.item in workspace && Matches(r.item, c)
    case User => r.item in user && Picked(r.item, c, userRefs) && !Aims(workspace, i => Matches(i, c), d)
    case Organization =>
      && r.item in organization && Matches(r.item, c)
      && (r.item.locked || Picked(r.item, c, organizationRefs))
      && !Aims(user, i => Picked(i, c, userRefs), d) && !Aims(workspace, i => Matches(i, c), d)
  }

  lemma ChosenHolds(items: seq<Item>, c: Context, refs: Option<seq<string>>, includeLocked: bool)
    ensures forall x :: x in Chosen(items, c, refs, includeLocked) <==>
              x in items && Matches(x, c) && ((includeLocked && x.locked) || Picked(x, c, refs))
  {
    FilterKeeps(items, i => Matches(i, c));
    if refs.Some? {
      FilterKeeps(Select(items, c), (i: Item) => (includeLocked && i.locked) || i.key in refs.value);
    }
  }

  lemma SelectHolds(items: seq<Item>, c: Context)
    ensures forall x :: x in Select(items, c) <==> x in items && Matches(x, c)
  {
    FilterKeeps(items, i => Matches(i, c));
  }

  lemma TargetsAims(chosen: seq<Item>, items: seq<Item>, keep: Item -> bool, d: Destination)
    requires forall x :: x in chosen <==> x in items && keep(x)
    ensures Targets(chosen, d) <==> Aims(items, keep, d)
  {
    if Targets(chosen, d) {
      var i :| 0 <= i < |chosen| && DestinationOf(chosen[i]) == d;
      assert chosen[i] in items && keep(chosen[i]);
    }
    if Aims(items, keep, d) {
      var x :| x in items && keep(x) && DestinationOf(x) == d;
      assert x in chosen;
    }
  }

  lemma WinsInForce(
    organization: seq<Item>, user: seq<Item>, workspace: seq<Item>,
    c: Context, organizationRefs: Option<seq<string>>, userRefs: Option<seq<string>>, r: Resolved)
    ensures Wins(Chosen(organization, c, organizationRefs, true), Chosen(user, c, userRefs, false),
                 Select(workspace, c), r)
            <==> InForce(organization, user, workspace, c, organizationRefs, userRefs, r)
  {
    hide Matches, Chosen, Select, Targets, Aims, DestinationOf;
    ChosenHolds(organization, c, organizationRefs, true);
    ChosenHolds(user, c, userRefs, false);
    SelectHolds(workspace, c);
    var d := DestinationOf(r.item);
    TargetsAims(Chosen(user, c, userRefs, false), user, i => Picked(i, c, userRefs), d);
    TargetsAims(Select(workspace, c), workspace, i => Matches(i, c), d);
  }

  /**
   The pipeline from the three lists to the resolved items: whenever everything
   resolves together it succeeds, and then it lists exactly the items in force,
   each destination once, in order.
   */
  method ResolveSelected(
    organization: seq<Item>, user: seq<Item>, workspace: seq<Item>,
    c: Context, organizationRefs: Option<seq<string>>, userRefs: Option<seq<string>>)
    returns (r: Result<seq<Resolved>>)
    ensures r.Success? <==> Coherent(Chosen(organization, c, organizationRefs, true), Chosen(user, c, userRefs, false),
                                     Select(workspace, c))
    ensures Coherent(organization, user, workspace) ==> r.Success?
    ensures r.Success? ==>
              && Ordered(Destinations(r.value))
              && forall x :: x in r.value <==>
                   InForce(organization, user, workspace, c, organizationRefs, userRefs, x)
  {
    hide Coherent, Chosen, Select, Wins, InForce, Ordered;
    r := Resolve(Chosen(organization, c, organizationRefs, true), Chosen(user, c, userRefs, false),
                 Select(workspace, c));
    if Coherent(organization, user, workspace) {
      SelectionNeverBreaksResolution(organization, user, workspace, c, organizationRefs, userRefs);
    }
    forall x ensures Wins(Chosen(organization, c, organizationRefs, true), Chosen(user, c, userRefs, false),
                          Select(workspace, c), x)
                     <==> InForce(organization, user, workspace, c, organizationRefs, userRefs, x) {
      WinsInForce(organization, user, workspace, c, organizationRefs, userRefs, x);
    }
  }

  // ---------------------------------------------------------------------------- selectors

  /** An item labelled for one workspace, organization, owner, template, image or access mode reaches only that one. */
  lemma LabelsConfine(i: Item, c: Context)
    requires Matches(i, c)
    ensures "workspace_id" in i.labels ==> c.workspaceId == Some(i.labels["workspace_id"])
    ensures "organization_id" in i.labels ==> c.organizationId == i.labels["organization_id"]
    ensures "owner_id" in i.labels ==> c.ownerId == i.labels["owner_id"]
    ensures "template_id" in i.labels ==> c.templateId == Some(i.labels["template_id"])
    ensures "image" in i.labels ==> c.image == i.labels["image"]
    ensures "access_mode" in i.labels ==> c.accessMode == i.labels["access_mode"]
    ensures i.labels.Keys <= {"workspace_id", "organization_id", "owner_id", "template_id", "image", "access_mode"}
    ensures i.templateSelector.Some? && i.templateSelector != Some("*") ==> c.templateId == i.templateSelector
  {
    forall k | k in i.labels ensures Label(c, k) == Some(i.labels[k]) {
    }
  }

  /** Nothing else confines it: what those labels and the selector allow does match. */
  lemma OnlyLabelsConfine(i: Item, c: Context)
    requires i.labels.Keys <= {"workspace_id", "organization_id", "owner_id", "template_id", "image", "access_mode"}
    requires "workspace_id" in i.labels ==> c.workspaceId == Some(i.labels["workspace_id"])
    requires "organization_id" in i.labels ==> c.organizationId == i.labels["organization_id"]
    requires "owner_id" in i.labels ==> c.ownerId == i.labels["owner_id"]
    requires "template_id" in i.labels ==> c.templateId == Some(i.labels["template_id"])
    requires "image" in i.labels ==> c.image == i.labels["image"]
    requires "access_mode" in i.labels ==> c.accessMode == i.labels["access_mode"]
    requires i.templateSelector.None? || i.templateSelector == Some("*") || c.templateId == i.templateSelector
    ensures Matches(i, c)
  {
    forall k | k in i.labels ensures Label(c, k) == Some(i.labels[k]) {
      assert k in i.labels.Keys;
    }
  }
}
