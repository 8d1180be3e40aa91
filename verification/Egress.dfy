/**
 The internet egress rules of a workspace: which addresses they admit, and how
 addresses learnt at run time stay blocked.
 */
module Egress {
  import opened Arithmetic
  import opened Options
  import opened Sequences

  function Width(v6: bool): nat { if v6 then 128 else 32 }

  /** A CIDR block; the address may have host bits set, which do not matter. */
  datatype Net = Net(v6: bool, addr: nat, prefix: nat)
  {
    predicate Valid() { addr < Pow2(Width(v6)) && prefix <= Width(v6) }

    function Size(): (n: nat)
      requires prefix <= Width(v6)
      ensures n > 0
    {
      Pow2(Width(v6) - prefix)
    }

    function Low(): (n: nat)
      requires prefix <= Width(v6)
    {
      BlockStart(addr, Size())
    }

    function High(): nat
      requires prefix <= Width(v6)
    {
      Low() + Size() - 1
    }
  }

  datatype Address = Address(v6: bool, bits: nat)
  {
    predicate Valid() { bits < Pow2(Width(v6)) }
  }

  /** Prefix match, as section 3.1 of RFC 4632 defines a block. */
  predicate In(a: Address, n: Net)
    requires n.prefix <= Width(n.v6)
  {
    a.v6 == n.v6 && a.bits / n.Size() == n.addr / n.Size()
  }

  /** `IpNet::contains`: by first and last address. */
  predicate Contains(n: Net, m: Net)
    requires n.prefix <= Width(n.v6) && m.prefix <= Width(m.v6)
  {
    n.v6 == m.v6 && n.Low() <= m.Low() && m.High() <= n.High()
  }

  lemma InRange(a: Address, n: Net)
    requires n.prefix <= Width(n.v6)
    ensures In(a, n) <==> a.v6 == n.v6 && n.Low() <= a.bits <= n.High()
  {
    BlockOf(a.bits, n.addr, n.Size());
  }

  lemma ContainsMeans(n: Net, m: Net, a: Address)
    requires n.prefix <= Width(n.v6) && m.prefix <= Width(m.v6) && Contains(n, m) && In(a, m)
    ensures In(a, n)
  {
    InRange(a, m);
    InRange(a, n);
  }

  /** A block with a longer prefix lies inside any block it shares an address with. */
  lemma LongerIsInside(n: Net, m: Net, a: Address)
    requires n.prefix <= m.prefix <= Width(m.v6) && n.v6 == m.v6 && In(a, n) && In(a, m)
    ensures Contains(n, m)
  {
    Pow2Sum(Width(m.v6) - m.prefix, m.prefix - n.prefix);
    forall x: nat | x / m.Size() == a.bits / m.Size() ensures x / n.Size() == a.bits / n.Size() {
      QuotientOfQuotient(x, m.Size(), Pow2(m.prefix - n.prefix));
      QuotientOfQuotient(a.bits, m.Size(), Pow2(m.prefix - n.prefix));
    }
    InRange(Address(m.v6, m.Low()), m);
    InRange(Address(m.v6, m.High()), m);
    InRange(Address(m.v6, m.Low()), n);
    InRange(Address(m.v6, m.High()), n);
  }

  /** Two blocks are nested or disjoint. */
  lemma NestedOrDisjoint(n: Net, m: Net, a: Address)
    requires n.prefix <= Width(n.v6) && m.prefix <= Width(m.v6) && In(a, n) && In(a, m)
    ensures Contains(n, m) || Contains(m, n)
  {
    if n.prefix <= m.prefix {
      LongerIsInside(n, m, a);
    } else {
      LongerIsInside(m, n, a);
    }
  }

  // ------------------------------------------------------------------------------- rules

  predicate Wf(ns: seq<Net>) { forall i :: 0 <= i < |ns| ==> ns[i].prefix <= Width(ns[i].v6) }

  predicate InAny(a: Address, ns: seq<Net>)
    requires Wf(ns)
  {
    exists i :: 0 <= i < |ns| && In(a, ns[i])
  }

  datatype Rule = Rule(cidr: Net, except: seq<Net>)

  predicate RuleWf(r: Rule) { r.cidr.prefix <= Width(r.cidr.v6) && Wf(r.except) }

  predicate Admits(r: Rule, a: Address)
    requires RuleWf(r)
  {
    In(a, r.cidr) && !InAny(a, r.except)
  }

  /** Each exception lies inside the block, and is not all of it. */
  predicate StrictlyInside(r: Rule)
    requires RuleWf(r)
  {
    forall i :: 0 <= i < |r.except| ==> Contains(r.cidr, r.except[i]) && !Contains(r.except[i], r.cidr)
  }

  lemma InAnyAppend(a: Address, ns: seq<Net>, ms: seq<Net>)
    requires Wf(ns) && Wf(ms)
    ensures Wf(ns + ms) && (InAny(a, ns + ms) <==> InAny(a, ns) || InAny(a, ms))
  {
    forall i | 0 <= i < |ns + ms| ensures (ns + ms)[i].prefix <= Width((ns + ms)[i].v6) {
    }
    if InAny(a, ns) {
      var i :| 0 <= i < |ns| && In(a, ns[i]);
      assert In(a, (ns + ms)[i]);
    }
    if InAny(a, ms) {
      var i :| 0 <= i < |ms| && In(a, ms[i]);
      assert In(a, (ns + ms)[|ns| + i]);
    }
  }

  /**
   `public_egress_rule`: the rule admits exactly the addresses of the block that
   are neither in `reserved` nor in any blocked block, however those overlap it;
   no rule means nothing is left to admit.
   */
  method PublicEgressRule(allowed: Net, reserved: seq<Net>, blocked: seq<Net>) returns (r: Option<Rule>)
    requires allowed.prefix <= Width(allowed.v6) && Wf(reserved) && Wf(blocked)
    requires forall i :: 0 <= i < |reserved| ==> Contains(allowed, reserved[i]) && !Contains(reserved[i], allowed)
    ensures r.Some? ==> RuleWf(r.value) && r.value.cidr == allowed && StrictlyInside(r.value)
    ensures r.Some? ==> forall a :: Admits(r.value, a) <==>
                          In(a, allowed) && !InAny(a, reserved) && !InAny(a, blocked)
    ensures r.None? ==> forall a :: In(a, allowed) ==> InAny(a, blocked)
    ensures r.None? <==> exists i :: 0 <= i < |blocked| && Contains(blocked[i], allowed)
  {
    hide In, Contains;
    var i := 0;
    while i < |blocked|
      invariant 0 <= i <= |blocked|
      invariant forall j :: 0 <= j < i ==> !Contains(blocked[j], allowed)
    {
      if Contains(blocked[i], allowed) {
        forall a | In(a, allowed) ensures InAny(a, blocked) {
          ContainsMeans(blocked[i], allowed, a);
        }
        return None;
      }
      i := i + 1;
    }
    var except := reserved;
    i := 0;
    while i < |blocked|
      invariant 0 <= i <= |blocked|
      invariant Wf(except) && StrictlyInside(Rule(allowed, except))
      invariant forall a :: In(a, allowed) ==> (InAny(a, except) <==> InAny(a, reserved) || InAny(a, blocked[..i]))
    {
      ghost var before := except;
      if blocked[i].v6 == allowed.v6 && Contains(allowed, blocked[i]) {
        except := except + [blocked[i]];
      }
      OneMore(allowed, reserved, blocked, i, before, except);
      i := i + 1;
    }
    assert blocked[..|blocked|] == blocked;
    return Some(Rule(allowed, except));
  }

  lemma OneMore(allowed: Net, reserved: seq<Net>, blocked: seq<Net>, i: nat, before: seq<Net>, except: seq<Net>)
    requires allowed.prefix <= Width(allowed.v6) && Wf(reserved) && Wf(blocked) && i < |blocked| && Wf(before)
    requires !Contains(blocked[i], allowed)
    requires except == if blocked[i].v6 == allowed.v6 && Contains(allowed, blocked[i])
                       then before + [blocked[i]] else before
    requires forall a :: In(a, allowed) ==> (InAny(a, before) <==> InAny(a, reserved) || InAny(a, blocked[..i]))
    ensures Wf(except) && Wf(blocked[..i + 1])
    ensures forall a :: In(a, allowed) ==> (InAny(a, except) <==> InAny(a, reserved) || InAny(a, blocked[..i + 1]))
  {
    hide In, Contains, InAny;
    assert blocked[..i + 1] == blocked[..i] + [blocked[i]];
    forall a | In(a, allowed) ensures InAny(a, except) <==> InAny(a, reserved) || InAny(a, blocked[..i + 1]) {
      InAnyAppend(a, blocked[..i], [blocked[i]]);
      InAnyOne(a, blocked[i]);
      if except != before {
        InAnyAppend(a, before, [blocked[i]]);
      } else if In(a, blocked[i]) {
        NestedOrDisjoint(allowed, blocked[i], a);
        SameFamily(a, allowed, blocked[i]);
      }
    }
  }

  lemma InAnyOne(a: Address, n: Net)
    requires n.prefix <= Width(n.v6)
    ensures InAny(a, [n]) <==> In(a, n)
  {
    if In(a, n) {
      assert In(a, [n][0]);
    }
  }

  lemma SameFamily(a: Address, n: Net, m: Net)
    requires n.prefix <= Width(n.v6) && m.prefix <= Width(m.v6) && In(a, n) && In(a, m)
    ensures n.v6 == m.v6
  {
  }

  // ------------------------------------------------------------------------ the two blocks

  function V4(a: nat, b: nat, c: nat, d: nat, prefix: nat): Net {
    Net(false, ((a * 256 + b) * 256 + c) * 256 + d, prefix)
  }

  /** An IPv6 block given by its first two groups. */
  function V6(g0: nat, g1: nat, prefix: nat): Net { Net(true, (g0 * 0x1_0000 + g1) * Pow2(96), prefix) }

  const PUBLIC_IPV4: Net := V4(0, 0, 0, 0, 0)
  const PUBLIC_IPV6: Net := V6(0x2000, 0, 3)

  const RESERVED_IPV4: seq<Net> := [
    V4(0, 0, 0, 0, 8), V4(10, 0, 0, 0, 8), V4(100, 64, 0, 0, 10), V4(127, 0, 0, 0, 8), V4(169, 254, 0, 0, 16),
    V4(172, 16, 0, 0, 12), V4(192, 0, 0, 0, 24), V4(192, 0, 2, 0, 24), V4(192, 31, 196, 0, 24),
    V4(192, 52, 193, 0, 24), V4(192, 88, 99, 0, 24), V4(192, 175, 48, 0, 24), V4(192, 168, 0, 0, 16),
    V4(198, 18, 0, 0, 15), V4(198, 51, 100, 0, 24), V4(203, 0, 113, 0, 24), V4(224, 0, 0, 0, 4),
    V4(240, 0, 0, 0, 4)]

  const RESERVED_IPV6: seq<Net> := [
    V6(0x2001, 0, 23), V6(0x2001, 0xdb8, 32), V6(0x2002, 0, 16), V6(0x3fff, 0, 20)]

  /** A block that starts inside another and has a longer prefix is strictly inside it. */
  lemma Narrower(n: Net, m: Net)
    requires n.v6 == m.v6 && n.prefix < m.prefix <= Width(m.v6) && In(Address(m.v6, m.addr), n)
    ensures Contains(n, m) && !Contains(m, n)
  {
    var a := Address(m.v6, m.addr);
    LongerIsInside(n, m, a);
    Pow2Sum(Width(m.v6) - m.prefix, m.prefix - n.prefix);
    assert Pow2(m.prefix - n.prefix) >= 2;
    Larger(m.Size(), Pow2(m.prefix - n.prefix));
  }

  lemma Larger(s: nat, t: nat)
    requires s > 0 && t >= 2
    ensures s * t > s
  {
    ProductIsNat(s, t - 2);
    assert s * t == s + s + s * (t - 2);
  }

  predicate NarrowV4(ns: seq<Net>) {
    forall i :: 0 <= i < |ns| ==> !ns[i].v6 && ns[i].addr < 0x1_0000_0000 && 0 < ns[i].prefix <= 32
  }

  lemma AllInsideV4(ns: seq<Net>)
    requires NarrowV4(ns)
    ensures PUBLIC_IPV4.prefix <= 32 && Wf(ns)
    ensures forall i :: 0 <= i < |ns| ==> Contains(PUBLIC_IPV4, ns[i]) && !Contains(ns[i], PUBLIC_IPV4)
  {
    hide Contains, Pow2;
    forall i | 0 <= i < |ns| ensures Contains(PUBLIC_IPV4, ns[i]) && !Contains(ns[i], PUBLIC_IPV4) {
      V4In(ns[i]);
      Narrower(PUBLIC_IPV4, ns[i]);
    }
  }

  lemma ReservedV4Inside()
    ensures PUBLIC_IPV4.prefix <= 32 && Wf(RESERVED_IPV4)
    ensures forall i :: 0 <= i < |RESERVED_IPV4| ==>
              Contains(PUBLIC_IPV4, RESERVED_IPV4[i]) && !Contains(RESERVED_IPV4[i], PUBLIC_IPV4)
  {
    hide Contains, Pow2;
    assert NarrowV4(RESERVED_IPV4);
    AllInsideV4(RESERVED_IPV4);
  }

  lemma V4Bits()
    ensures Pow2(32) == 0x1_0000_0000
  {
    assert Pow2(8) == 0x100;
    hide Pow2;
    Pow2Sum(8, 8);
    assert Pow2(16) == 0x100 * 0x100;
    Pow2Sum(16, 16);
  }

  lemma V4In(m: Net)
    requires !m.v6 && m.addr < 0x1_0000_0000
    ensures In(Address(m.v6, m.addr), PUBLIC_IPV4)
  {
    V4Bits();
  }

  lemma V6In(m: Net, g: nat)
    requires m.v6 && 0x2000_0000 <= g < 0x4000_0000 && m.addr == g * Pow2(96)
    ensures In(Address(m.v6, m.addr), PUBLIC_IPV6)
  {
    hide Pow2;
    Pow2Of29();
    Pow2Sum(96, 29);
    Groups(g, Pow2(96));
    Groups(0x2000_0000, Pow2(96));
    assert PUBLIC_IPV6.Size() == Pow2(125);
  }

  lemma Pow2Of29()
    ensures Pow2(29) == 0x2000_0000
  {
    assert Pow2(14) == 0x4000;
    assert Pow2(15) == 0x8000;
    Pow2Sum(14, 15);
  }

  /** The first three bits of an address are the first three bits of its first two groups. */
  lemma Groups(g: nat, s: nat)
    requires s > 0
    ensures s * 0x2000_0000 > 0 && g * s / (s * 0x2000_0000) == g / 0x2000_0000
  {
    QuotientIs(g * s, s, g, 0);
    QuotientOfQuotient(g * s, s, 0x2000_0000);
  }

  lemma ReservedV6Inside()
    ensures PUBLIC_IPV6.prefix <= 128 && Wf(RESERVED_IPV6)
    ensures forall i :: 0 <= i < |RESERVED_IPV6| ==>
              Contains(PUBLIC_IPV6, RESERVED_IPV6[i]) && !Contains(RESERVED_IPV6[i], PUBLIC_IPV6)
  {
    hide Contains, Pow2;
    forall i | 0 <= i < |RESERVED_IPV6|
      ensures Contains(PUBLIC_IPV6, RESERVED_IPV6[i]) && !Contains(RESERVED_IPV6[i], PUBLIC_IPV6)
    {
      ghost var g := [0x2001_0000, 0x2001_0db8, 0x2002_0000, 0x3fff_0000][i];
      assert RESERVED_IPV6[i].addr == g * Pow2(96);
      V6In(RESERVED_IPV6[i], g);
      Narrower(PUBLIC_IPV6, RESERVED_IPV6[i]);
    }
  }

  predicate RulesWf(rs: seq<Rule>) { forall i :: 0 <= i < |rs| ==> RuleWf(rs[i]) }

  predicate Admitted(rs: seq<Rule>, a: Address)
    requires RulesWf(rs)
  {
    exists i :: 0 <= i < |rs| && Admits(rs[i], a)
  }

  lemma TablesWf()
    ensures PUBLIC_IPV4.prefix <= 32 && PUBLIC_IPV6.prefix <= 128 && Wf(RESERVED_IPV4) && Wf(RESERVED_IPV6)
  {
    hide Pow2;
  }

  /** An address the policy is meant to let through. */
  ghost predicate Reachable(a: Address, blocked: seq<Net>)
    requires Wf(blocked)
  {
    TablesWf();
    && (In(a, PUBLIC_IPV4) || In(a, PUBLIC_IPV6))
    && !InAny(a, RESERVED_IPV4) && !InAny(a, RESERVED_IPV6) && !InAny(a, blocked)
  }

  lemma OtherFamily(a: Address, n: Net, ns: seq<Net>)
    requires n.prefix <= Width(n.v6) && Wf(ns) && In(a, n)
    requires forall i :: 0 <= i < |ns| ==> ns[i].v6 != n.v6
    ensures !InAny(a, ns)
  {
  }

  /**
   `internet_egress_rules`, its IP rules: exactly the public addresses that are
   neither reserved nor blocked, for every list of blocked blocks.
   */
  method InternetEgressRules(blocked: seq<Net>) returns (rules: seq<Rule>)
    requires Wf(blocked)
    ensures RulesWf(rules) && forall i :: 0 <= i < |rules| ==> StrictlyInside(rules[i])
    ensures forall a :: Admitted(rules, a) <==> Reachable(a, blocked)
  {
    hide In, Contains, Pow2, InAny;
    ReservedV4Inside();
    ReservedV6Inside();
    rules := [];
    var v4 := PublicEgressRule(PUBLIC_IPV4, RESERVED_IPV4, blocked);
    if v4.Some? {
      rules := rules + [v4.value];
    }
    var v6 := PublicEgressRule(PUBLIC_IPV6, RESERVED_IPV6, blocked);
    if v6.Some? {
      rules := rules + [v6.value];
    }
    forall a ensures Admitted(rules, a) <==> Reachable(a, blocked) {
      Families(a);
      if v4.Some? && Admits(v4.value, a) {
        assert Admits(rules[0], a);
      }
      if v6.Some? && Admits(v6.value, a) {
        assert Admits(rules[|rules| - 1], a);
      }
    }
  }

  lemma Families(a: Address)
    ensures PUBLIC_IPV4.prefix <= 32 && PUBLIC_IPV6.prefix <= 128 && Wf(RESERVED_IPV4) && Wf(RESERVED_IPV6)
    ensures In(a, PUBLIC_IPV4) ==> !InAny(a, RESERVED_IPV6) && !In(a, PUBLIC_IPV6)
    ensures In(a, PUBLIC_IPV6) ==> !InAny(a, RESERVED_IPV4) && !In(a, PUBLIC_IPV4)
  {
    hide Pow2;
    if In(a, PUBLIC_IPV4) {
      OtherFamily(a, PUBLIC_IPV4, RESERVED_IPV6);
    }
    if In(a, PUBLIC_IPV6) {
      OtherFamily(a, PUBLIC_IPV6, RESERVED_IPV4);
    }
  }

  // -------------------------------------------------------------- addresses learnt later

  /** The block of one address. */
  function Host(a: Address): Net { Net(a.v6, a.bits, Width(a.v6)) }

  lemma InHost(a: Address)
    ensures In(a, Host(a))
  {
  }

  function Elements(ns: seq<Net>): set<Net> { set n | n in ns }

  lemma {:induction false} DistinctSize(ns: seq<Net>)
    requires Distinct(ns)
    ensures |Elements(ns)| == |ns|
  {
    if ns != [] {
      var rest := ns[..|ns| - 1];
      DistinctSize(rest);
      assert ns == rest + [ns[|ns| - 1]];
      assert Elements(ns) == Elements(rest) + {ns[|ns| - 1]};
      assert ns[|ns| - 1] !in rest;
    }
  }

  predicate Sorted(ns: seq<Net>, rank: Net -> nat) {
    forall i, j :: 0 <= i < j < |ns| ==> rank(ns[i]) <= rank(ns[j])
  }

  function Insert(n: Net, ns: seq<Net>, rank: Net -> nat): seq<Net> {
    if ns == [] || rank(n) <= rank(ns[0]) then [n] + ns else [ns[0]] + Insert(n, ns[1..], rank)
  }

  lemma {:induction false} InsertPermutes(n: Net, ns: seq<Net>, rank: Net -> nat)
    ensures multiset(Insert(n, ns, rank)) == multiset(ns) + multiset{n}
  {
    if ns != [] {
      assert ns == [ns[0]] + ns[1..];
      InsertPermutes(n, ns[1..], rank);
    }
  }

  lemma {:induction false} InsertSorts(n: Net, ns: seq<Net>, rank: Net -> nat)
    requires Sorted(ns, rank)
    ensures Sorted(Insert(n, ns, rank), rank)
  {
    if ns != [] && rank(n) > rank(ns[0]) {
      var r := Insert(n, ns[1..], rank);
      InsertSorts(n, ns[1..], rank);
      InsertPermutes(n, ns[1..], rank);
      forall x | x in r ensures rank(ns[0]) <= rank(x) {
        assert x in multiset(r);
        if x != n {
          assert x in ns[1..];
        }
      }
    }
  }

  /** The order of the printed blocks, as a rank; only that it is some order matters. */
  function Sort(ns: seq<Net>, rank: Net -> nat): (r: seq<Net>)
    ensures Sorted(r, rank) && multiset(r) == multiset(ns)
  {
    if ns == [] then []
    else
      assert ns == [ns[0]] + ns[1..];
      InsertPermutes(ns[0], Sort(ns[1..], rank), rank);
      InsertSorts(ns[0], Sort(ns[1..], rank), rank);
      Insert(ns[0], Sort(ns[1..], rank), rank)
  }

  /** The shared configuration: blocks from the operator, and addresses observed since. */
  class EgressConfig {
    const additional: seq<Net>
    const rank: Net -> nat
    var observed: seq<Net>
    ghost var remembered: set<Address>

    ghost predicate Valid()
      reads this
    {
      && Wf(additional) && Wf(observed) && Distinct(observed) && Elements(observed) !! Elements(additional)
      && forall a :: a in remembered ==> Host(a) in additional || Host(a) in observed
    }

    constructor (additional: seq<Net>, rank: Net -> nat)
      requires Wf(additional)
      ensures Valid() && this.additional == additional && observed == [] && remembered == {}
    {
      this.additional, this.rank, observed, remembered := additional, rank, [], {};
    }

    /** `blocked_cidrs`: what the operator has blocked, and what has been observed. */
    method BlockedCidrs() returns (blocked: seq<Net>)
      requires Valid()
      ensures Wf(blocked) && forall a :: InAny(a, blocked) <==> InAny(a, additional) || InAny(a, observed)
    {
      blocked := additional + observed;
      forall a ensures Wf(blocked) && (InAny(a, blocked) <==> InAny(a, additional) || InAny(a, observed)) {
        InAnyAppend(a, additional, observed);
      }
    }

    /**
     A policy built now: exactly the addresses that are public, not reserved and
     not blocked by now, and so none that was ever remembered.
     */
    method BuildPolicy() returns (rules: seq<Rule>)
      requires Valid()
      ensures RulesWf(rules) && forall i :: 0 <= i < |rules| ==> StrictlyInside(rules[i])
      ensures forall a :: Admitted(rules, a) <==> Reachable(a, additional) && !InAny(a, observed)
      ensures Denies(rules, remembered)
    {
      hide In, InAny, Pow2, Admitted, StrictlyInside, Distinct, Elements;
      var blocked := BlockedCidrs();
      rules := InternetEgressRules(blocked);
      forall a ensures Reachable(a, blocked) <==> Reachable(a, additional) && !InAny(a, observed) {
      }
      forall a | a in remembered ensures !Reachable(a, blocked) {
        RememberedIsBlocked(a, additional, observed);
      }
    }

    /**
     `remember_blocked_addresses`: every address is blocked afterwards, nothing that
     was blocked is forgotten, and the count is that of the blocks newly added.
     */
    method RememberBlockedAddresses(addresses: seq<Address>) returns (added: nat)
      requires Valid()
      modifies this
      ensures Valid() && remembered == old(remembered) + AddressSet(addresses)
      ensures Elements(observed) == old(Elements(observed)) + New(addresses, additional)
      ensures added == |Elements(observed) - old(Elements(observed))|
      ensures Sorted(observed, rank)
    {
      hide Sort, Distinct, Elements, Sorted, Wf, Host, AddressSet, New;
      var before := |observed|;
      DistinctSize(observed);
      NoneYet(addresses, additional);
      for i := 0 to |addresses|
        invariant Valid() && remembered == old(remembered) + AddressSet(addresses[..i])
        invariant Elements(observed) == old(Elements(observed)) + New(addresses[..i], additional)
      {
        NewStep(addresses, i, additional);
        Learn(addresses[i]);
      }
      assert addresses[..|addresses|] == addresses;
      var sorted := Sort(observed, rank);
      PermutationKeeps(observed, sorted);
      SameElements(observed, sorted);
      SortedWf(observed, sorted);
      observed := sorted;
      DistinctSize(observed);
      SetGrowth(old(Elements(observed)), Elements(observed));
      return |observed| - before;
    }

    method Learn(a: Address)
      requires Valid()
      modifies this
      ensures Valid() && Elements(observed) == old(Elements(observed)) + New([a], additional)
      ensures remembered == old(remembered) + {a}
    {
      var cidr := Host(a);
      ghost var was := observed;
      if cidr !in additional && cidr !in observed {
        observed := observed + [cidr];
        assert Elements(observed) == Elements(was) + {cidr};
      }
      assert [a][0] == a;
      remembered := remembered + {a};
    }
  }

  lemma RememberedIsBlocked(a: Address, additional: seq<Net>, observed: seq<Net>)
    requires Wf(additional) && Wf(observed) && (Host(a) in additional || Host(a) in observed)
    ensures InAny(a, additional) || InAny(a, observed)
  {
    hide Pow2, In;
    InHost(a);
    if Host(a) in additional {
      var i :| 0 <= i < |additional| && additional[i] == Host(a);
    } else {
      var i :| 0 <= i < |observed| && observed[i] == Host(a);
    }
  }

  datatype Call = Remember(addresses: seq<Address>) | Build

  ghost predicate Denies(rules: seq<Rule>, addresses: set<Address>) {
    RulesWf(rules) && forall a :: a in addresses ==> !Admitted(rules, a)
  }

  function RememberedBefore(calls: seq<Call>, k: nat): set<Address>
    requires k <= |calls|
  {
    if k == 0 then {}
    else
      var before := RememberedBefore(calls, k - 1);
      if calls[k - 1].Remember? then before + AddressSet(calls[k - 1].addresses) else before
  }

  /**
   Any run of remembering and building: whatever was remembered before a policy
   was built is denied by it, however much later that is.
   */
  method RunCalls(config: EgressConfig, calls: seq<Call>) returns (policies: map<nat, seq<Rule>>)
    requires config.Valid() && config.remembered == {}
    modifies config
    ensures config.Valid()
    ensures forall k :: k in policies <==> 0 <= k < |calls| && calls[k].Build?
    ensures forall k :: k in policies ==> Denies(policies[k], RememberedBefore(calls, k))
  {
    hide *;
    policies := map[];
    NothingBefore(calls);
    for n := 0 to |calls|
      invariant config.Valid() && config.remembered == RememberedBefore(calls, n)
      invariant forall k :: k in policies <==> 0 <= k < n && calls[k].Build?
      invariant forall k :: k in policies ==> Denies(policies[k], RememberedBefore(calls, k))
    {
      RememberedNext(calls, n);
      match calls[n]
      case Remember(addresses) =>
        var _ := config.RememberBlockedAddresses(addresses);
      case Build =>
        var rules := config.BuildPolicy();
        policies := policies[n := rules];
    }
  }

  lemma NothingBefore(calls: seq<Call>)
    ensures RememberedBefore(calls, 0) == {}
  {
  }

  lemma RememberedNext(calls: seq<Call>, k: nat)
    requires k < |calls|
    ensures calls[k].Build? ==> RememberedBefore(calls, k + 1) == RememberedBefore(calls, k)
    ensures calls[k].Remember? ==>
              RememberedBefore(calls, k + 1) == RememberedBefore(calls, k) + AddressSet(calls[k].addresses)
  {
  }

  /** What was remembered in one call is remembered in all later ones. */
  lemma {:induction false} StaysRemembered(calls: seq<Call>, j: nat, k: nat, a: Address)
    requires j < k <= |calls| && calls[j].Remember? && a in calls[j].addresses
    ensures a in RememberedBefore(calls, k)
  {
    if j < k - 1 {
      StaysRemembered(calls, j, k - 1, a);
    }
  }

  function AddressSet(addresses: seq<Address>): set<Address> { set a | a in addresses }

  /** The blocks of those addresses that the operator has not listed. */
  function New(addresses: seq<Address>, additional: seq<Net>): set<Net> {
    set a | a in addresses && Host(a) !in additional :: Host(a)
  }

  lemma NoneYet(addresses: seq<Address>, additional: seq<Net>)
    ensures New(addresses[..0], additional) == {} && AddressSet(addresses[..0]) == {}
  {
  }

  lemma NewStep(addresses: seq<Address>, i: nat, additional: seq<Net>)
    requires i < |addresses|
    ensures New(addresses[..i + 1], additional) == New(addresses[..i], additional) + New([addresses[i]], additional)
    ensures AddressSet(addresses[..i + 1]) == AddressSet(addresses[..i]) + {addresses[i]}
  {
    assert addresses[..i + 1] == addresses[..i] + [addresses[i]];
  }

  lemma SameElements(ns: seq<Net>, ms: seq<Net>)
    requires forall n :: n in ns <==> n in ms
    ensures Elements(ns) == Elements(ms)
  {
  }

  lemma SortedWf(ns: seq<Net>, ms: seq<Net>)
    requires Wf(ns) && Elements(ns) == Elements(ms)
    ensures Wf(ms)
  {
    forall i | 0 <= i < |ms| ensures ms[i].prefix <= Width(ms[i].v6) {
      assert ms[i] in Elements(ms);
    }
  }

  lemma SetGrowth(a: set<Net>, b: set<Net>)
    requires a <= b
    ensures |b| - |a| == |b - a|
  {
    assert b == a + (b - a);
  }

  // ------------------------------------------------------------------ the tables, as numbers

  lemma Powers()
    ensures Pow2(4) == 0x10 && Pow2(8) == 0x100 && Pow2(16) == 0x1_0000 && Pow2(17) == 0x2_0000
    ensures Pow2(20) == 0x10_0000 && Pow2(22) == 0x40_0000 && Pow2(24) == 0x100_0000 && Pow2(28) == 0x1000_0000
    ensures Pow2(32) == 0x1_0000_0000
  {
    assert Pow2(4) == 0x10 && Pow2(8) == 0x100;
    Pow2Sum(8, 8);
    Pow2Sum(16, 1);
    Pow2Sum(16, 4);
    Pow2Sum(20, 2);
    Pow2Sum(16, 8);
    Pow2Sum(24, 4);
    Pow2Sum(28, 4);
  }

  /** A block whose address is a multiple of its size holds the numbers from there on. */
  lemma AlignedBlock(a: Address, n: Net, size: nat)
    requires n.prefix <= Width(n.v6) && n.Size() == size && n.addr % size == 0
    ensures In(a, n) <==> a.v6 == n.v6 && n.addr <= a.bits < n.addr + size
  {
    hide Pow2;
    InRange(a, n);
    assert n.addr == (n.addr / size) * size;
  }

  /** First address and end of the reserved IPv4 ranges: private, shared, loopback, link-local, multicast and others. */
  const SPECIAL_IPV4: seq<(nat, nat)> := [
    (0x0000_0000, 0x0100_0000), (0x0a00_0000, 0x0b00_0000), (0x6440_0000, 0x6480_0000),
    (0x7f00_0000, 0x8000_0000), (0xa9fe_0000, 0xa9ff_0000), (0xac10_0000, 0xac20_0000),
    (0xc000_0000, 0xc000_0100), (0xc000_0200, 0xc000_0300), (0xc01f_c400, 0xc01f_c500),
    (0xc034_c100, 0xc034_c200), (0xc058_6300, 0xc058_6400), (0xc0af_3000, 0xc0af_3100),
    (0xc0a8_0000, 0xc0a9_0000), (0xc612_0000, 0xc614_0000), (0xc633_6400, 0xc633_6500),
    (0xcb00_7100, 0xcb00_7200), (0xe000_0000, 0xf000_0000), (0xf000_0000, 0x1_0000_0000)]

  predicate SpecialV4(x: nat) {
    exists i :: 0 <= i < |SPECIAL_IPV4| && SPECIAL_IPV4[i].0 <= x < SPECIAL_IPV4[i].1
  }

  lemma SpecialBlock(i: nat)
    requires i < |SPECIAL_IPV4|
    ensures |RESERVED_IPV4| == |SPECIAL_IPV4|
    ensures var n, r := RESERVED_IPV4[i], SPECIAL_IPV4[i];
            && !n.v6 && n.prefix <= 32 && n.addr == r.0 < r.1 && n.Size() == r.1 - r.0 && r.0 % (r.1 - r.0) == 0
  {
    hide Pow2;
    Powers();
    assert i < 6 || 6 <= i < 12 || 12 <= i < 18;
  }

  lemma ReservedV4Is(a: Address)
    ensures Wf(RESERVED_IPV4) && (InAny(a, RESERVED_IPV4) <==> !a.v6 && SpecialV4(a.bits))
  {
    hide In, Pow2;
    TablesWf();
    SpecialBlock(0);
    forall i | 0 <= i < |RESERVED_IPV4|
      ensures In(a, RESERVED_IPV4[i]) <==> !a.v6 && SPECIAL_IPV4[i].0 <= a.bits < SPECIAL_IPV4[i].1
    {
      SpecialBlock(i);
      AlignedBlock(a, RESERVED_IPV4[i], SPECIAL_IPV4[i].1 - SPECIAL_IPV4[i].0);
    }
  }

  /** The first 32 bits of an IPv6 address that may be reached: 2000::/3, without the special blocks in it. */
  predicate PublicV6(g: nat) {
    && 0x2000_0000 <= g < 0x4000_0000
    && !(0x2001_0000 <= g < 0x2001_0200) && g != 0x2001_0db8
    && !(0x2002_0000 <= g < 0x2003_0000) && !(0x3fff_0000 <= g < 0x3fff_1000)
  }

  const LOW_BITS: nat := 0x1_0000_0000_0000_0000_0000_0000

  /** The first 32 of the 128 bits. */
  function Leading(a: Address): nat { a.bits / LOW_BITS }

  lemma LowBits()
    ensures Pow2(96) == LOW_BITS
  {
    V4Bits();
    assert Pow2(64) == 0x1_0000_0000_0000_0000 by { Pow2Sum(32, 32); }
    Pow2Sum(64, 32);
  }

  /** A block of prefix 32 - k is decided by the first 32 bits, less the last k of them. */
  lemma LeadingBits(a: Address, n: Net, h: nat, k: nat)
    requires n.v6 && n.prefix + k == 32 && n.addr == h * Pow2(96)
    ensures In(a, n) <==> a.v6 && Leading(a) / Pow2(k) == h / Pow2(k)
  {
    LowBits();
    hide Pow2;
    Pow2Sum(96, k);
    QuotientOfQuotient(a.bits, Pow2(96), Pow2(k));
    QuotientOfQuotient(n.addr, Pow2(96), Pow2(k));
    QuotientIs(n.addr, Pow2(96), h, 0);
  }

  lemma V6Powers()
    ensures Pow2(0) == 1 && Pow2(9) == 0x200 && Pow2(12) == 0x1000 && Pow2(16) == 0x1_0000 && Pow2(29) == 0x2000_0000
  {
    Pow2Of29();
    Powers();
    assert Pow2(9) == 0x200 && Pow2(12) == 0x1000;
  }

  lemma V6Blocks(a: Address)
    ensures PUBLIC_IPV6.prefix <= 128 && Wf(RESERVED_IPV6)
    ensures In(a, PUBLIC_IPV6) && !InAny(a, RESERVED_IPV6) <==> a.v6 && PublicV6(Leading(a))
  {
    hide Pow2, In, Leading;
    TablesWf();
    V6Powers();
    LeadingBits(a, PUBLIC_IPV6, 0x2000_0000, 29);
    LeadingBits(a, RESERVED_IPV6[0], 0x2001_0000, 9);
    LeadingBits(a, RESERVED_IPV6[1], 0x2001_0db8, 0);
    LeadingBits(a, RESERVED_IPV6[2], 0x2002_0000, 16);
    LeadingBits(a, RESERVED_IPV6[3], 0x3fff_0000, 12);
    assert InAny(a, RESERVED_IPV6) <==>
           In(a, RESERVED_IPV6[0]) || In(a, RESERVED_IPV6[1]) || In(a, RESERVED_IPV6[2]) || In(a, RESERVED_IPV6[3]);
  }

  lemma V4All(a: Address)
    ensures PUBLIC_IPV4.prefix <= 32 && (In(a, PUBLIC_IPV4) <==> !a.v6 && a.bits < 0x1_0000_0000)
  {
    hide Pow2;
    V4Bits();
    AlignedBlock(a, PUBLIC_IPV4, 0x1_0000_0000);
  }

  /**
   What a policy lets through, in numbers: an IPv4 address outside the special
   ranges, or an IPv6 address of 2000::/3 outside those in it, that is not blocked.
   */
  lemma ReachableIs(a: Address, blocked: seq<Net>)
    requires Wf(blocked)
    ensures Reachable(a, blocked) <==>
              && !InAny(a, blocked)
              && (if a.v6 then PublicV6(Leading(a)) else a.bits < 0x1_0000_0000 && !SpecialV4(a.bits))
  {
    hide Pow2, In, InAny, PublicV6, SpecialV4, Leading;
    TablesWf();
    Families(a);
    V4All(a);
    V6Blocks(a);
    ReservedV4Is(a);
  }

  /**
   Private, loopback, link-local, shared and multicast addresses are never let
   through; of IPv6, no address whose first three bits are not 001.
   */
  lemma InternalIsNeverReachable(a: Address, blocked: seq<Net>)
    requires Wf(blocked)
    requires if a.v6 then Leading(a) / 0x2000_0000 != 1
             else || a.bits / 0x100_0000 in {0, 10, 127} || a.bits / 0x1_0000 in {0xa9fe, 0xc0a8}
                  || a.bits / 0x10_0000 == 0xac1 || a.bits / 0x40_0000 == 0x191 || a.bits >= 0xe000_0000
    ensures !Reachable(a, blocked)
  {
    hide Pow2, Reachable, InAny;
    ReachableIs(a, blocked);
    if !a.v6 && a.bits < 0x1_0000_0000 {
      var x := a.bits;
      assert SPECIAL_IPV4[0].0 <= x < SPECIAL_IPV4[0].1 || SPECIAL_IPV4[1].0 <= x < SPECIAL_IPV4[1].1
             || SPECIAL_IPV4[2].0 <= x < SPECIAL_IPV4[2].1 || SPECIAL_IPV4[3].0 <= x < SPECIAL_IPV4[3].1
             || SPECIAL_IPV4[4].0 <= x < SPECIAL_IPV4[4].1 || SPECIAL_IPV4[5].0 <= x < SPECIAL_IPV4[5].1
             || SPECIAL_IPV4[12].0 <= x < SPECIAL_IPV4[12].1 || SPECIAL_IPV4[16].0 <= x < SPECIAL_IPV4[16].1
             || SPECIAL_IPV4[17].0 <= x < SPECIAL_IPV4[17].1;
    }
  }
}
