/**
 Patching a network policy under optimistic concurrency: a write names the
 resource version it was computed from, others edit, delete and replace the
 policy at any moment, and a conflict is retried at most twice.
 */
module PolicyPatch {
  import opened Options

  datatype Policy = Policy(
    version: nat, installation: Option<nat>, workspace: Option<nat>, mapping: Option<nat>, deleting: bool, spec: nat)

  /** What is to be written, and for which owner and mapping. */
  datatype Wanted = Wanted(installation: nat, workspace: nat, mapping: Option<nat>, spec: nat)

  predicate Owned(w: Wanted, p: Policy) {
    p.installation == Some(w.installation) && p.workspace == Some(w.workspace)
  }

  predicate MappingOk(w: Wanted, p: Policy) { w.mapping.Some? ==> p.mapping == w.mapping }

  /** A policy this patch may overwrite. */
  predicate Fit(w: Wanted, p: Policy) { Owned(w, p) && MappingOk(w, p) && !p.deleting }

  datatype Reply = Patched | Missing | Conflict | Refused

  /** The policy's name in the API server; versions are never used twice. */
  class Server {
    var policy: Option<Policy>
    var next: nat
    ghost var overwritten: seq<Policy>
    ghost var found: seq<Option<Policy>>
    ghost var failures: nat

    ghost predicate Valid()
      reads this
    {
      policy.Some? ==> policy.value.version < next
    }

    /** A policy that was read is what the server still has, or its version is gone. */
    ghost predicate Knows(p: Policy)
      reads this
    {
      p.version < next && (policy.Some? && policy.value.version == p.version ==> policy.value == p)
    }

    constructor (start: Option<Policy>, next: nat)
      requires start.Some? ==> start.value.version < next
      ensures Valid() && policy == start && overwritten == []
    {
      policy, this.next, overwritten, found, failures := start, next, [], [], 0;
    }

    /** Others edit, delete, create or replace the policy. */
    method Interfere()
      requires Valid()
      modifies this
      ensures Valid() && overwritten == old(overwritten) && found == old(found) && failures == old(failures)
      ensures forall p :: old(Knows(p)) ==> Knows(p)
    {
      if * {
        policy := None;
      } else if * {
        var p: Policy := *;
        policy, next := Some(p.(version := next)), next + 1;
      }
    }

    method Read() returns (p: Outcome<Option<Policy>>)
      requires Valid()
      modifies this
      ensures Valid() && overwritten == old(overwritten)
      ensures p.Ok? && p.value.Some? ==> Knows(p.value.value)
      ensures failures == old(failures) + if p.Err? then 1 else 0
      ensures found == old(found) + if p.Ok? then [p.value] else []
    {
      Interfere();
      if * {
        failures := failures + 1;
        return Err;
      }
      found := found + [policy];
      return Ok(policy);
    }

    /** A merge patch under a version precondition; the reply to a write may be lost. */
    method Patch(version: nat, spec: nat) returns (r: Reply)
      requires Valid()
      modifies this
      ensures Valid()
      ensures overwritten == old(overwritten) ==> forall p :: old(Knows(p)) ==> Knows(p)
      ensures r == Patched ==> overwritten != old(overwritten)
      ensures r in {Missing, Conflict} ==> overwritten == old(overwritten)
      ensures overwritten == old(overwritten) || Wrote(old(overwritten), version, spec)
      ensures overwritten != old(overwritten) ==>
                forall p :: old(Knows(p)) && p.version == version ==> p == overwritten[|overwritten| - 1]
      ensures failures == old(failures) + if r == Refused then 1 else 0
      ensures found == old(found) + if r == Missing then [None] else []
    {
      Interfere();
      if * {
        failures := failures + 1;
        return Refused;
      }
      if policy.None? {
        found := found + [None];
        return Missing;
      }
      if policy.value.version != version {
        return Conflict;
      }
      overwritten := overwritten + [policy.value];
      policy, next := Some(policy.value.(version := next, spec := spec)), next + 1;
      if * {
        failures := failures + 1;
        return Refused;
      }
      return Patched;
    }

    /** One write of this specification, over a policy of this version. */
    ghost predicate Wrote(before: seq<Policy>, version: nat, spec: nat)
      reads this
    {
      && |overwritten| == |before| + 1 && overwritten[..|before|] == before
      && var p := overwritten[|before|];
         && p.version == version
         && policy.Some? && policy.value == p.(version := policy.value.version, spec := spec)
    }
  }

  /** What the server last had, as far as it was asked since; before that, what had been read. */
  ghost function LastFound(s: Server, before: seq<Option<Policy>>, read: Policy): Option<Policy>
    reads s
  {
    if |s.found| <= |before| then Some(read) else s.found[|s.found| - 1]
  }

  /** One policy, fit to be overwritten, was; the server now has what was wanted. */
  ghost predicate Replaced(s: Server, before: seq<Policy>, w: Wanted)
    reads s
  {
    && |s.overwritten| == |before| + 1 && s.overwritten[..|before|] == before
    && Fit(w, s.overwritten[|before|]) && s.overwritten[|before|].spec != w.spec
    && s.policy.Some? && s.policy.value.spec == w.spec && Fit(w, s.policy.value)
  }

  /**
   `patch_network_policy`: at most three writes are attempted and at most one takes
   effect; what it overwrites is, at that moment, owned, for the right mapping and
   not terminating, and differs from what is written. True means it was written,
   false that nothing was, because what was found last was missing, terminating or
   as wanted already. An error leaves that open; it takes a failed request, a policy
   that is somebody else's, or a third conflict.
   */
  method PatchNetworkPolicy(s: Server, w: Wanted, read: Policy) returns (r: Outcome<bool>, attempts: nat)
    requires s.Valid() && s.Knows(read)
    modifies s
    ensures s.Valid() && attempts <= 3
    ensures s.overwritten == old(s.overwritten) || Replaced(s, old(s.overwritten), w)
    ensures r == Ok(true) ==> s.overwritten != old(s.overwritten)
    ensures r == Ok(false) ==> s.overwritten == old(s.overwritten)
    ensures r == Ok(false) ==>
              var last := LastFound(s, old(s.found), read);
              last.None? || last.value.deleting
              || (Owned(w, last.value) && MappingOk(w, last.value) && last.value.spec == w.spec)
    ensures r.Err? ==>
              var last := LastFound(s, old(s.found), read);
              || s.failures > old(s.failures) || attempts == 3
              || (last.Some? && !last.value.deleting && !(Owned(w, last.value) && MappingOk(w, last.value)))
  {
    var current := read;
    attempts := 0;
    for attempt := 0 to 3
      invariant s.Valid() && s.Knows(current) && s.overwritten == old(s.overwritten)
      invariant attempts == attempt <= 2
      invariant s.failures == old(s.failures)
      invariant old(s.found) <= s.found && LastFound(s, old(s.found), read) == Some(current)
    {
      if current.deleting {
        return Ok(false), attempts;
      }
      if !Owned(w, current) || !MappingOk(w, current) {
        return Err, attempts;
      }
      if current.spec == w.spec {
        return Ok(false), attempts;
      }
      var reply := s.Patch(current.version, w.spec);
      attempts := attempts + 1;
      match reply {
        case Patched =>
          return Ok(true), attempts;
        case Missing =>
          return Ok(false), attempts;
        case Refused =>
          return Err, attempts;
        case Conflict =>
          if attempt == 2 {
            return Err, attempts;
          }
          var latest := s.Read();
          if latest.Err? {
            return Err, attempts;
          }
          if latest.value.None? {
            return Ok(false), attempts;
          }
          current := latest.value.value;
      }
    }
    // the last attempt always returns
    assert false;
  }
}
