/**
 Turning resolved injections into the Secrets and ConfigMaps a workspace mounts,
 with a manifest that says where each item's bytes are. Base64 and UTF-8 are left
 abstract: all that matters is that text and its bytes determine each other.
 */
module Materialization {
  import opened Options
  import opened Injections
  import opened Cascade
  import Q = Quantity

  type Bytes = seq<nat>

  datatype Codec = Codec(
    base64: string -> Option<Bytes>, utf8: string -> Bytes, text: Bytes -> Option<string>, control: char -> bool)

  ghost predicate Lawful(c: Codec) {
    (forall s :: c.text(c.utf8(s)) == Some(s)) && (forall b :: c.text(b).Some? ==> c.utf8(c.text(b).value) == b)
  }

  datatype Fault =
    | DuplicateTarget(target: string) | InvalidBase64 | InvalidName(target: string)
    | NotUtf8 | HasControl | InvalidPath(target: string)

  datatype Built<T> = Done(value: T) | Failed(fault: Fault)

  datatype EnvironmentEntry = EnvironmentEntry(name: string, source: Scope, secret: bool, dataKey: string)

  datatype FileEntry = FileEntry(
    key: string, kind: Kind, target: string, source: Scope, secret: bool, dataKey: string,
    mode: Option<nat>, owner: Option<string>, group: Option<string>)

  // --------------------------------------------------------------------------- one item

  function Decode(c: Codec, v: Value): Option<Bytes> {
    match v
    case Utf8(text) => Some(c.utf8(text))
    case Base64(text) => c.base64(text)
  }

  predicate Word(ch: char) { ch == '_' || 'a' <= ch <= 'z' || 'A' <= ch <= 'Z' }

  /** `validate_environment_name`. */
  predicate NameOk(s: string) {
    s != "" && Word(s[0]) && forall i :: 1 <= i < |s| ==> Word(s[i]) || '0' <= s[i] <= '9'
  }

  /** `validate_absolute_path`: absolute, and no component is `..`. */
  predicate PathOk(s: string) {
    s != "" && s[0] == '/' && NoParents(s)
  }

  /** No slash is followed by a component that is `..`. */
  predicate NoParents(s: string) {
    forall i :: 0 <= i < |s| - 2 && s[i] == '/' && s[i + 1] == '.' && s[i + 2] == '.' ==>
      i + 3 < |s| && s[i + 3] != '/'
  }

  predicate IsEnv(i: Item) { i.kind == EnvironmentVariable }

  /** What is wrong with an item taken by itself; the checks in the order they are made. */
  function ItemFault(c: Codec, i: Item): Option<Fault> {
    var v := Decode(c, i.value);
    if v.None? then Some(InvalidBase64)
    else if IsEnv(i) then
      if !NameOk(i.target) then Some(InvalidName(i.target))
      else if c.text(v.value).None? then Some(NotUtf8)
      else if exists j :: 0 <= j < |c.text(v.value).value| && c.control(c.text(v.value).value[j]) then Some(HasControl)
      else None
    else if !PathOk(i.target) then Some(InvalidPath(i.target))
    else None
  }

  function BytesOf(c: Codec, i: Item): Bytes {
    if Decode(c, i.value).Some? then Decode(c, i.value).value else []
  }

  /** The image owns its Rust toolchain home. */
  predicate Skipped(i: Item) { IsEnv(i) && i.target == "RUSTUP_HOME" }

  predicate Secret(i: Item) { i.sensitive || i.kind == SecretFile }

  // ---------------------------------------------------------------------------- data keys

  function Zeros(n: nat): (z: string)
    ensures Q.Digits(z) && |z| == n
  {
    if n == 0 then "" else Zeros(n - 1) + "0"
  }

  /** A number with at least four digits. */
  function Padded(n: nat): string {
    var d := Q.Decimals(n);
    if |d| >= 4 then d else Zeros(4 - |d|) + d
  }

  lemma {:induction false} ZerosVal(n: nat)
    ensures Q.Val(Zeros(n)) == 0
  {
    if n > 0 {
      ZerosVal(n - 1);
      assert Zeros(n)[..n - 1] == Zeros(n - 1);
    }
  }

  lemma PaddedVal(n: nat)
    ensures Q.Digits(Padded(n)) && Q.Val(Padded(n)) == n
  {
    hide Q.Val, Q.Decimals, Q.Pow10, Zeros;
    var d := Q.Decimals(n);
    if |d| < 4 {
      ZerosVal(4 - |d|);
      Q.ValAppend(Zeros(4 - |d|), d);
      assert Q.Val(Zeros(4 - |d|)) * Q.Pow10(|d|) == 0;
    }
  }

  function DataKey(n: nat, i: Item): string { (if IsEnv(i) then "env-" else "file-") + Padded(n) }

  /** Data keys never collide, for any number of items, nor with the manifests. */
  lemma KeysDiffer(n: nat, m: nat, i: Item, j: Item)
    requires n != m
    ensures DataKey(n, i) != DataKey(m, j)
  {
    PaddedVal(n);
    PaddedVal(m);
    if IsEnv(i) == IsEnv(j) {
      var prefix := if IsEnv(i) then "env-" else "file-";
      assert DataKey(n, i)[|prefix|..] == Padded(n);
      assert DataKey(m, j)[|prefix|..] == Padded(m);
    } else {
      assert DataKey(n, i)[0] != DataKey(m, j)[0];
    }
  }

  lemma KeysAreNotManifests(n: nat, i: Item)
    ensures DataKey(n, i) != "workspace-files.json" && DataKey(n, i) != "workspace-environment.json"
  {
    assert DataKey(n, i)[0] in {'e', 'f'};
  }

  // --------------------------------------------------------------------- what a list means

  predicate InSecret(i: Item) { !Skipped(i) && Secret(i) }
  predicate InConfig(c: Codec, i: Item) { !Skipped(i) && !Secret(i) && c.text(BytesOf(c, i)).Some? }
  predicate InBinary(c: Codec, i: Item) { !Skipped(i) && !Secret(i) && c.text(BytesOf(c, i)).None? }

  function TextOf(c: Codec, i: Item): string {
    if c.text(BytesOf(c, i)).Some? then c.text(BytesOf(c, i)).value else ""
  }

  /** The table holds exactly the chosen items, each under its data key. */
  ghost predicate Holds<T(!new)>(rs: seq<Resolved>, table: map<string, T>, chosen: Item -> bool, value: Item -> T) {
    && (forall n :: 0 <= n < |rs| && chosen(rs[n].item) ==>
          DataKey(n, rs[n].item) in table && table[DataKey(n, rs[n].item)] == value(rs[n].item))
    && (forall k :: k in table ==> exists n :: 0 <= n < |rs| && chosen(rs[n].item) && k == DataKey(n, rs[n].item))
  }

  lemma HoldsStep<T(!new)>(rs: seq<Resolved>, r: Resolved, table: map<string, T>,
                           chosen: Item -> bool, value: Item -> T)
    requires Holds(rs, table, chosen, value)
    ensures Holds(rs + [r], if chosen(r.item) then table[DataKey(|rs|, r.item) := value(r.item)] else table,
                  chosen, value)
  {
    hide DataKey, Holds;
    var table' := if chosen(r.item) then table[DataKey(|rs|, r.item) := value(r.item)] else table;
    forall n | 0 <= n < |rs + [r]| && chosen((rs + [r])[n].item)
      ensures DataKey(n, (rs + [r])[n].item) in table'
      ensures table'[DataKey(n, (rs + [r])[n].item)] == value((rs + [r])[n].item)
    {
      StillFiled(rs, r, table, chosen, value, n);
    }
    forall k | k in table'
      ensures exists n :: 0 <= n < |rs + [r]| && chosen((rs + [r])[n].item) && k == DataKey(n, (rs + [r])[n].item)
    {
      StillNumbered(rs, r, table, chosen, value, k);
    }
    assert Holds(rs + [r], table', chosen, value) by { HoldsIf(rs + [r], table', chosen, value); }
  }

  lemma HoldsIf<T(!new)>(rs: seq<Resolved>, table: map<string, T>, chosen: Item -> bool, value: Item -> T)
    requires forall n :: 0 <= n < |rs| && chosen(rs[n].item) ==>
               DataKey(n, rs[n].item) in table && table[DataKey(n, rs[n].item)] == value(rs[n].item)
    requires forall k :: k in table ==> exists n :: 0 <= n < |rs| && chosen(rs[n].item) && k == DataKey(n, rs[n].item)
    ensures Holds(rs, table, chosen, value)
  {
    hide DataKey;
  }

  lemma StillFiled<T(!new)>(rs: seq<Resolved>, r: Resolved, table: map<string, T>,
                            chosen: Item -> bool, value: Item -> T, n: nat)
    requires Holds(rs, table, chosen, value) && n <= |rs| && chosen((rs + [r])[n].item)
    ensures var table' := if chosen(r.item) then table[DataKey(|rs|, r.item) := value(r.item)] else table;
            var i := (rs + [r])[n].item;
            DataKey(n, i) in table' && table'[DataKey(n, i)] == value(i)
  {
    hide DataKey;
    if n < |rs| {
      assert (rs + [r])[n] == rs[n];
      KeysDiffer(n, |rs|, rs[n].item, r.item);
    }
  }

  lemma StillNumbered<T(!new)>(rs: seq<Resolved>, r: Resolved, table: map<string, T>,
                               chosen: Item -> bool, value: Item -> T, k: string)
    requires Holds(rs, table, chosen, value)
    requires k in table || (chosen(r.item) && k == DataKey(|rs|, r.item))
    ensures exists n :: 0 <= n < |rs + [r]| && chosen((rs + [r])[n].item) && k == DataKey(n, (rs + [r])[n].item)
  {
    hide DataKey;
    if k in table {
      var n :| 0 <= n < |rs| && chosen(rs[n].item) && k == DataKey(n, rs[n].item);
      assert (rs + [r])[n] == rs[n];
    } else {
      assert (rs + [r])[|rs|] == r;
    }
  }

  function EntryOf(n: nat, r: Resolved): EnvironmentEntry {
    EnvironmentEntry(r.item.target, r.source, r.item.sensitive, DataKey(n, r.item))
  }

  function FileOf(n: nat, r: Resolved): FileEntry {
    FileEntry(r.item.key, r.item.kind, r.item.target, r.source, Secret(r.item), DataKey(n, r.item),
              r.item.fileMode, r.item.owner, r.item.group)
  }

  function Environment(rs: seq<Resolved>): seq<EnvironmentEntry> {
    if rs == [] then []
    else
      var n, r := |rs| - 1, rs[|rs| - 1];
      Environment(rs[..n]) + (if IsEnv(r.item) && !Skipped(r.item) then [EntryOf(n, r)] else [])
  }

  function Files(rs: seq<Resolved>): seq<FileEntry> {
    if rs == [] then []
    else
      var n, r := |rs| - 1, rs[|rs| - 1];
      Files(rs[..n]) + (if !IsEnv(r.item) then [FileOf(n, r)] else [])
  }

  function TargetsOf(rs: seq<Resolved>): set<string> { set n | 0 <= n < |rs| :: rs[n].item.target }

  /** What the list from position `n` on fails with, given what came before. */
  function FaultAt(c: Codec, rs: seq<Resolved>, n: nat): Option<Fault>
    requires n < |rs|
  {
    if rs[n].item.target in TargetsOf(rs[..n]) then Some(DuplicateTarget(rs[n].item.target))
    else ItemFault(c, rs[n].item)
  }

  ghost predicate Fine(c: Codec, rs: seq<Resolved>) { forall n :: 0 <= n < |rs| ==> FaultAt(c, rs, n).None? }

  // ------------------------------------------------------------------------------ building

  class MaterializedData {
    const c: Codec
    ghost var done: seq<Resolved>
    var secretEnvironment: map<string, Bytes>
    var configEnvironment: map<string, string>
    var secretFiles: map<string, Bytes>
    var configFiles: map<string, string>
    var configBinaryFiles: map<string, Bytes>
    var targets: set<string>
    var environmentTargets: set<string>
    var files: seq<FileEntry>
    var environment: seq<EnvironmentEntry>

    ghost predicate Valid()
      reads this
    {
      && Fine(c, done)
      && targets == TargetsOf(done)
      && environment == Environment(done) && files == Files(done)
      && Holds(done, secretFiles, InSecret, i => BytesOf(c, i))
      && Holds(done, configFiles, i => InConfig(c, i), i => TextOf(c, i))
      && Holds(done, configBinaryFiles, i => InBinary(c, i), i => BytesOf(c, i))
      && Exported(c, done, secretEnvironment, configEnvironment, environmentTargets)
    }

    constructor (codec: Codec)
      ensures Valid() && done == [] && c == codec
    {
      c, done := codec, [];
      secretEnvironment, configEnvironment := map[], map[];
      secretFiles, configFiles, configBinaryFiles := map[], map[], map[];
      targets, environmentTargets, files, environment := {}, {}, [], [];
    }

    /** The tables the data keys lead into hold exactly the items of this list. */
    ghost predicate Stored(rs: seq<Resolved>)
      reads this
    {
      && Holds(rs, secretFiles, InSecret, i => BytesOf(c, i))
      && Holds(rs, configFiles, i => InConfig(c, i), i => TextOf(c, i))
      && Holds(rs, configBinaryFiles, i => InBinary(c, i), i => BytesOf(c, i))
    }

    ghost predicate Listed(rs: seq<Resolved>)
      reads this
    {
      && environment == Environment(rs) && files == Files(rs)
      && Exported(c, rs, secretEnvironment, configEnvironment, environmentTargets)
    }

    /** `insert`: the next item, or the first thing wrong with it. */
    method Insert(index: nat, r: Resolved) returns (fault: Option<Fault>)
      requires Valid() && index == |done|
      modifies this
      ensures fault == FaultAt(c, old(done) + [r], index)
      ensures fault.None? ==> Valid() && done == old(done) + [r]
    {
      hide Holds, Exported, Environment, Files, NameOk, PathOk, Fine, Decode;
      ghost var rs := done + [r];
      assert rs[..|done|] == done && rs[|done|] == r;
      TargetsStep(done, r);
      FineStep(c, done, r);
      if r.item.target in targets {
        return Some(DuplicateTarget(r.item.target));
      }
      targets := targets + {r.item.target};
      var v := Decode(c, r.item.value);
      if v.None? {
        return Some(InvalidBase64);
      }
      if IsEnv(r.item) {
        fault := InsertEnvironment(index, r, v.value);
      } else {
        fault := InsertFile(index, r, v.value);
      }
      done := done + [r];
    }

    method InsertEnvironment(index: nat, r: Resolved, value: Bytes) returns (fault: Option<Fault>)
      requires index == |done| && Stored(done) && Listed(done)
      requires IsEnv(r.item) && Decode(c, r.item.value) == Some(value) && r.item.target !in TargetsOf(done)
      modifies this
      ensures fault == ItemFault(c, r.item) && targets == old(targets) && done == old(done)
      ensures fault.None? ==> Stored(done + [r]) && Listed(done + [r])
    {
      hide Holds, Exported, DataKey, NameOk, TargetsOf, Padded;
      if !NameOk(r.item.target) {
        return Some(InvalidName(r.item.target));
      }
      var text := c.text(value);
      if text.None? {
        return Some(NotUtf8);
      }
      if exists j :: 0 <= j < |text.value| && c.control(text.value[j]) {
        return Some(HasControl);
      }
      StoreEnvironment(index, r, value, text.value);
      return None;
    }

    method StoreEnvironment(index: nat, r: Resolved, value: Bytes, text: string)
      requires index == |done| && Stored(done) && Listed(done)
      requires IsEnv(r.item) && Decode(c, r.item.value) == Some(value) && c.text(value) == Some(text)
      requires r.item.target !in TargetsOf(done)
      modifies this
      ensures targets == old(targets) && done == old(done)
      ensures Stored(done + [r]) && Listed(done + [r])
    {
      hide Holds, Exported, DataKey, TargetsOf, Padded, Environment, Files;
      HoldsStep(done, r, secretFiles, InSecret, i => BytesOf(c, i));
      HoldsStep(done, r, configFiles, i => InConfig(c, i), i => TextOf(c, i));
      HoldsStep(done, r, configBinaryFiles, i => InBinary(c, i), i => BytesOf(c, i));
      ExportedStep(c, done, r, secretEnvironment, configEnvironment, environmentTargets);
      KeyOf(index, r.item);
      ListedStep(done, r);
      if r.item.target == "RUSTUP_HOME" {
        return;
      }
      var dataKey := "env-" + Padded(index);
      if r.item.sensitive {
        secretEnvironment := secretEnvironment[r.item.target := value];
        secretFiles := secretFiles[dataKey := value];
      } else {
        configEnvironment := configEnvironment[r.item.target := text];
        configFiles := configFiles[dataKey := text];
      }
      environmentTargets := environmentTargets + {r.item.target};
      environment := environment + [EnvironmentEntry(r.item.target, r.source, r.item.sensitive, dataKey)];
    }

    method InsertFile(index: nat, r: Resolved, value: Bytes) returns (fault: Option<Fault>)
      requires index == |done| && Stored(done) && Listed(done)
      requires !IsEnv(r.item) && Decode(c, r.item.value) == Some(value)
      modifies this
      ensures fault == ItemFault(c, r.item) && targets == old(targets) && done == old(done)
      ensures fault.None? ==> Stored(done + [r]) && Listed(done + [r])
    {
      hide Holds, Exported, DataKey, PathOk, Padded;
      if !PathOk(r.item.target) {
        return Some(InvalidPath(r.item.target));
      }
      HoldsStep(done, r, secretFiles, InSecret, i => BytesOf(c, i));
      HoldsStep(done, r, configFiles, i => InConfig(c, i), i => TextOf(c, i));
      HoldsStep(done, r, configBinaryFiles, i => InBinary(c, i), i => BytesOf(c, i));
      ExportedFile(c, done, r, secretEnvironment, configEnvironment, environmentTargets);
      KeyOf(index, r.item);
      ListedStep(done, r);
      var dataKey := "file-" + Padded(index);
      var useSecret := r.item.sensitive || r.item.kind == SecretFile;
      if useSecret {
        secretFiles := secretFiles[dataKey := value];
      } else if c.text(value).Some? {
        configFiles := configFiles[dataKey := c.text(value).value];
      } else {
        configBinaryFiles := configBinaryFiles[dataKey := value];
      }
      files := files + [FileEntry(r.item.key, r.item.kind, r.item.target, r.source, useSecret, dataKey,
                                  r.item.fileMode, r.item.owner, r.item.group)];
      return None;
    }
  }

  lemma KeyOf(n: nat, i: Item)
    ensures DataKey(n, i) == if IsEnv(i) then "env-" + Padded(n) else "file-" + Padded(n)
  {
  }

  lemma TargetsStep(rs: seq<Resolved>, r: Resolved)
    ensures TargetsOf(rs + [r]) == TargetsOf(rs) + {r.item.target}
  {
    var rs' := rs + [r];
    forall t ensures t in TargetsOf(rs') <==> t in TargetsOf(rs) + {r.item.target} {
      if t in TargetsOf(rs) {
        var n :| 0 <= n < |rs| && rs[n].item.target == t;
        assert rs'[n] == rs[n];
      }
      assert rs'[|rs|] == r;
    }
  }

  lemma FineStep(c: Codec, rs: seq<Resolved>, r: Resolved)
    requires Fine(c, rs)
    ensures FaultAt(c, rs + [r], |rs|).None? ==> Fine(c, rs + [r])
  {
    var rs' := rs + [r];
    if FaultAt(c, rs', |rs|).None? {
      forall n | 0 <= n < |rs'| ensures FaultAt(c, rs', n).None? {
        if n < |rs| {
          assert rs'[n] == rs[n] && rs'[..n] == rs[..n];
          assert FaultAt(c, rs, n).None?;
        }
      }
    }
  }

  lemma ListedStep(rs: seq<Resolved>, r: Resolved)
    ensures Environment(rs + [r])
            == Environment(rs) + (if IsEnv(r.item) && !Skipped(r.item) then [EntryOf(|rs|, r)] else [])
    ensures Files(rs + [r]) == Files(rs) + (if !IsEnv(r.item) then [FileOf(|rs|, r)] else [])
  {
    assert (rs + [r])[..|rs|] == rs;
  }

  lemma NamedLater(rs: seq<Resolved>, r: Resolved, t: string)
    ensures Named(rs, t) ==> Named(rs + [r], t)
    ensures IsEnv(r.item) && !Skipped(r.item) && t == r.item.target ==> Named(rs + [r], t)
  {
    if Named(rs, t) {
      var n :| 0 <= n < |rs| && Kept(rs[n].item) && rs[n].item.target == t;
      assert (rs + [r])[n] == rs[n];
    }
    assert (rs + [r])[|rs|] == r;
  }

  lemma ExportedFile(c: Codec, rs: seq<Resolved>, r: Resolved,
                     secrets: map<string, Bytes>, configs: map<string, string>, names: set<string>)
    requires Exported(c, rs, secrets, configs, names) && !Kept(r.item)
    ensures Exported(c, rs + [r], secrets, configs, names)
  {
    hide Named, SetFor;
    forall t | t in names || t in secrets || t in configs ensures Named(rs + [r], t) {
      NamedLater(rs, r, t);
    }
  }

  lemma ExportedStep(c: Codec, rs: seq<Resolved>, r: Resolved,
                     secrets: map<string, Bytes>, configs: map<string, string>, names: set<string>)
    requires Exported(c, rs, secrets, configs, names) && IsEnv(r.item) && r.item.target !in TargetsOf(rs)
    ensures Skipped(r.item) ==> Exported(c, rs + [r], secrets, configs, names)
    ensures !Skipped(r.item) && r.item.sensitive ==>
              Exported(c, rs + [r], secrets[r.item.target := BytesOf(c, r.item)], configs, names + {r.item.target})
    ensures !Skipped(r.item) && !r.item.sensitive ==>
              Exported(c, rs + [r], secrets, configs[r.item.target := TextOf(c, r.item)], names + {r.item.target})
  {
    if Skipped(r.item) {
      ExportedFile(c, rs, r, secrets, configs, names);
    } else {
      ExportedNew(c, rs, r, secrets, configs, names);
    }
  }

  lemma ExportedNew(c: Codec, rs: seq<Resolved>, r: Resolved,
                    secrets: map<string, Bytes>, configs: map<string, string>, names: set<string>)
    requires Exported(c, rs, secrets, configs, names) && IsEnv(r.item) && r.item.target !in TargetsOf(rs)
    requires !Skipped(r.item)
    ensures r.item.sensitive ==>
              Exported(c, rs + [r], secrets[r.item.target := BytesOf(c, r.item)], configs, names + {r.item.target})
    ensures !r.item.sensitive ==>
              Exported(c, rs + [r], secrets, configs[r.item.target := TextOf(c, r.item)], names + {r.item.target})
  {
    var rs', t0 := rs + [r], r.item.target;
    Unnamed(rs, t0);
    var secrets' := if r.item.sensitive then secrets[t0 := BytesOf(c, r.item)] else secrets;
    var configs' := if r.item.sensitive then configs else configs[t0 := TextOf(c, r.item)];
    var names' := names + {t0};
    forall n | 0 <= n < |rs'| && Kept(rs'[n].item) ensures SetFor(c, rs'[n].item, secrets', configs', names') {
      if n < |rs| {
        assert rs'[n] == rs[n] && SetFor(c, rs[n].item, secrets, configs, names);
      }
    }
    hide Named;
    forall t | t in names' || t in secrets' || t in configs' ensures Named(rs', t) {
      NamedLater(rs, r, t);
    }
    assert Exported(c, rs', secrets', configs', names');
  }

  lemma Unnamed(rs: seq<Resolved>, t: string)
    requires t !in TargetsOf(rs)
    ensures !Named(rs, t) && forall n :: 0 <= n < |rs| ==> rs[n].item.target != t
  {
    forall n | 0 <= n < |rs| ensures rs[n].item.target != t {
      assert rs[n].item.target in TargetsOf(rs);
    }
  }

  /** Items that become variables of the container. */
  predicate Kept(i: Item) { IsEnv(i) && !Skipped(i) }

  ghost predicate Named(rs: seq<Resolved>, t: string) {
    exists n :: 0 <= n < |rs| && Kept(rs[n].item) && rs[n].item.target == t
  }

  /** The variable is set from the Secret if it is sensitive, from the ConfigMap otherwise. */
  predicate SetFor(c: Codec, i: Item, secrets: map<string, Bytes>, configs: map<string, string>, names: set<string>) {
    && i.target in names
    && (if i.sensitive then i.target in secrets && secrets[i.target] == BytesOf(c, i) && i.target !in configs
        else i.target in configs && configs[i.target] == TextOf(c, i) && i.target !in secrets)
  }

  /** The variables set in the container, by name. */
  ghost predicate Exported(c: Codec, rs: seq<Resolved>,
                           secrets: map<string, Bytes>, configs: map<string, string>, names: set<string>) {
    && (forall n :: 0 <= n < |rs| && Kept(rs[n].item) ==> SetFor(c, rs[n].item, secrets, configs, names))
    && (forall t :: t in names || t in secrets || t in configs ==> Named(rs, t))
  }

  // ------------------------------------------------------------------------------- the whole

  const FILES_JSON := "workspace-files.json"
  const ENVIRONMENT_JSON := "workspace-environment.json"

  datatype Materialized = Materialized(
    environmentSecret: map<string, Bytes>, environmentConfig: map<string, string>,
    fileSecret: map<string, Bytes>, fileConfig: map<string, string>, fileBinary: map<string, Bytes>,
    environmentTargets: set<string>, files: seq<FileEntry>, environment: seq<EnvironmentEntry>)

  /** The objects hold exactly the items, and the manifests list them. */
  ghost predicate Correct(c: Codec, rs: seq<Resolved>, m: Materialized) {
    && m.environment == Environment(rs) && m.files == Files(rs)
    && Holds(rs, m.fileSecret, InSecret, i => BytesOf(c, i))
    && Holds(rs, m.fileConfig - {FILES_JSON, ENVIRONMENT_JSON}, i => InConfig(c, i), i => TextOf(c, i))
    && Holds(rs, m.fileBinary, i => InBinary(c, i), i => BytesOf(c, i))
    && Exported(c, rs, m.environmentSecret, m.environmentConfig, m.environmentTargets)
  }

  /**
   `build`: succeeds exactly on lists with nothing wrong in them, and then every
   object holds exactly what it should; a failure is the first fault there is.
   */
  method Build(c: Codec, rs: seq<Resolved>, filesJson: seq<FileEntry> -> string,
               environmentJson: seq<EnvironmentEntry> -> string) returns (m: Built<Materialized>)
    ensures m.Done? <==> Fine(c, rs)
    ensures m.Done? ==>
              && Correct(c, rs, m.value)
              && FILES_JSON in m.value.fileConfig && m.value.fileConfig[FILES_JSON] == filesJson(Files(rs))
              && ENVIRONMENT_JSON in m.value.fileConfig
              && m.value.fileConfig[ENVIRONMENT_JSON] == environmentJson(Environment(rs))
    ensures m.Failed? ==>
              exists n :: 0 <= n < |rs| && FaultAt(c, rs, n) == Some(m.fault)
                          && forall j :: 0 <= j < n ==> FaultAt(c, rs, j).None?
  {
    hide Holds, Exported, Environment, Files, FaultAt;
    var data := new MaterializedData(c);
    for n := 0 to |rs|
      invariant data.Valid() && data.done == rs[..n] && data.c == c
      modifies data
    {
      assert rs[..n] + [rs[n]] == rs[..n + 1];
      SameFault(c, rs, n);
      var fault := data.Insert(n, rs[n]);
      if fault.Some? {
        assert Fine(c, rs[..n]);
        forall j | 0 <= j < n ensures FaultAt(c, rs, j).None? {
          SameFault(c, rs, j);
          SameFault(c, rs[..n], j);
          assert rs[..n][..j + 1] == rs[..j + 1];
        }
        return Failed(fault.value);
      }
    }
    assert rs[..|rs|] == rs;
    var config := data.configFiles[FILES_JSON := filesJson(data.files)];
    config := config[ENVIRONMENT_JSON := environmentJson(data.environment)];
    WithoutManifests(c, rs, data.configFiles, config);
    m := Done(Materialized(data.secretEnvironment, data.configEnvironment, data.secretFiles, config,
                           data.configBinaryFiles, data.environmentTargets, data.files, data.environment));
  }

  /** A fault is found from the list up to it. */
  lemma SameFault(c: Codec, rs: seq<Resolved>, n: nat)
    requires n < |rs|
    ensures FaultAt(c, rs[..n + 1], n) == FaultAt(c, rs, n)
  {
    assert rs[..n + 1][..n] == rs[..n];
  }

  lemma WithoutManifests(c: Codec, rs: seq<Resolved>, table: map<string, string>, table': map<string, string>)
    requires Holds(rs, table, i => InConfig(c, i), i => TextOf(c, i))
    requires table'.Keys == table.Keys + {FILES_JSON, ENVIRONMENT_JSON}
    requires forall k :: k in table && k != FILES_JSON && k != ENVIRONMENT_JSON ==> table'[k] == table[k]
    ensures table' - {FILES_JSON, ENVIRONMENT_JSON} == table
  {
    hide DataKey;
    forall k | k in table ensures k != FILES_JSON && k != ENVIRONMENT_JSON {
      var n :| 0 <= n < |rs| && InConfig(c, rs[n].item) && k == DataKey(n, rs[n].item);
      KeysAreNotManifests(n, rs[n].item);
    }
  }

  // ---------------------------------------------------------------------- what it guarantees

  /** Targets that were validated when they were stored. */
  predicate Validated(rs: seq<Resolved>) {
    forall n :: 0 <= n < |rs| ==>
      if IsEnv(rs[n].item) then NameOk(rs[n].item.target) else PathOk(rs[n].item.target)
  }

  /** What the cascade resolves never fails as a duplicate. */
  lemma ResolvedNeverDuplicates(c: Codec, rs: seq<Resolved>, n: nat)
    requires Ordered(Destinations(rs)) && Validated(rs) && n < |rs|
    ensures FaultAt(c, rs, n) != Some(DuplicateTarget(rs[n].item.target))
  {
    hide Ordered, Before;
    forall j | 0 <= j < n ensures rs[j].item.target != rs[n].item.target {
      assert Destinations(rs)[j] != Destinations(rs)[n] by {
        DistinctPlaces(Destinations(rs), j, n);
      }
    }
    forall j | 0 <= j < |rs[..n]| ensures rs[..n][j].item.target != rs[n].item.target {
      assert rs[..n][j] == rs[j];
    }
  }

  lemma DistinctPlaces(ds: seq<Destination>, i: nat, j: nat)
    requires Ordered(ds) && i < j < |ds|
    ensures ds[i] != ds[j]
  {
    BeforeTotal(ds[i], ds[j]);
  }

  lemma {:induction false} EnvironmentLists(rs: seq<Resolved>, n: nat)
    requires n < |rs| && Kept(rs[n].item)
    ensures exists e :: 0 <= e < |Environment(rs)| && Environment(rs)[e] == EntryOf(n, rs[n])
  {
    var k := |rs| - 1;
    if n < k {
      EnvironmentLists(rs[..k], n);
      var e :| 0 <= e < |Environment(rs[..k])| && Environment(rs[..k])[e] == EntryOf(n, rs[..k][n]);
      assert Environment(rs)[e] == EntryOf(n, rs[n]);
    } else {
      assert Environment(rs)[|Environment(rs)| - 1] == EntryOf(n, rs[n]);
    }
  }

  lemma {:induction false} EnvironmentEntries(rs: seq<Resolved>, e: nat)
    returns (n: nat)
    requires e < |Environment(rs)|
    ensures n < |rs| && Kept(rs[n].item) && Environment(rs)[e] == EntryOf(n, rs[n])
    ensures e < |Environment(rs)| - 1 ==> n < |rs| - 1
    decreases |rs|
  {
    var k := |rs| - 1;
    if e < |Environment(rs[..k])| {
      n := EnvironmentEntries(rs[..k], e);
    } else {
      n := k;
    }
  }

  /** No two entries of the manifest share a data key. */
  lemma {:induction false} EnvironmentOnce(rs: seq<Resolved>, e: nat, f: nat)
    requires e < f < |Environment(rs)|
    ensures Environment(rs)[e].dataKey != Environment(rs)[f].dataKey
    decreases |rs|
  {
    hide DataKey;
    var k := |rs| - 1;
    if f < |Environment(rs[..k])| {
      EnvironmentOnce(rs[..k], e, f);
    } else {
      var n := EnvironmentEntries(rs[..k], e);
      KeysDiffer(n, k, rs[..k][n].item, rs[k].item);
    }
  }

  lemma {:induction false} FilesList(rs: seq<Resolved>, n: nat)
    requires n < |rs| && !IsEnv(rs[n].item)
    ensures exists e :: 0 <= e < |Files(rs)| && Files(rs)[e] == FileOf(n, rs[n])
  {
    var k := |rs| - 1;
    if n < k {
      FilesList(rs[..k], n);
      var e :| 0 <= e < |Files(rs[..k])| && Files(rs[..k])[e] == FileOf(n, rs[..k][n]);
      assert Files(rs)[e] == FileOf(n, rs[n]);
    } else {
      assert Files(rs)[|Files(rs)| - 1] == FileOf(n, rs[n]);
    }
  }

  lemma {:induction false} FileEntries(rs: seq<Resolved>, e: nat)
    returns (n: nat)
    requires e < |Files(rs)|
    ensures n < |rs| && !IsEnv(rs[n].item) && Files(rs)[e] == FileOf(n, rs[n])
    decreases |rs|
  {
    var k := |rs| - 1;
    if e < |Files(rs[..k])| {
      n := FileEntries(rs[..k], e);
    } else {
      n := k;
    }
  }

  lemma {:induction false} FilesOnce(rs: seq<Resolved>, e: nat, f: nat)
    requires e < f < |Files(rs)|
    ensures Files(rs)[e].dataKey != Files(rs)[f].dataKey
    decreases |rs|
  {
    hide DataKey;
    var k := |rs| - 1;
    if f < |Files(rs[..k])| {
      FilesOnce(rs[..k], e, f);
    } else {
      var n := FileEntries(rs[..k], e);
      KeysDiffer(n, k, rs[..k][n].item, rs[k].item);
    }
  }

  /** The bytes a manifest entry leads to. */
  function Lookup(c: Codec, m: Materialized, secret: bool, key: string): Option<Bytes> {
    if secret then if key in m.fileSecret then Some(m.fileSecret[key]) else None
    else if key in m.fileConfig then Some(c.utf8(m.fileConfig[key]))
    else if key in m.fileBinary then Some(m.fileBinary[key])
    else None
  }

  lemma ConfigEntry(c: Codec, rs: seq<Resolved>, m: Materialized, n: nat)
    requires Correct(c, rs, m) && n < |rs|
    ensures InConfig(c, rs[n].item) ==>
              var k := DataKey(n, rs[n].item); k in m.fileConfig && m.fileConfig[k] == TextOf(c, rs[n].item)
    ensures !InConfig(c, rs[n].item) ==> DataKey(n, rs[n].item) !in m.fileConfig
    ensures !InSecret(rs[n].item) ==> DataKey(n, rs[n].item) !in m.fileSecret
    ensures !InBinary(c, rs[n].item) ==> DataKey(n, rs[n].item) !in m.fileBinary
  {
    hide DataKey, InConfig, InSecret, InBinary, Environment, Files, Exported, TextOf, BytesOf;
    var k := DataKey(n, rs[n].item);
    var config := m.fileConfig - {FILES_JSON, ENVIRONMENT_JSON};
    KeysAreNotManifests(n, rs[n].item);
    assert k in m.fileConfig <==> k in config;
    forall j | 0 <= j < |rs| && DataKey(j, rs[j].item) == k ensures j == n {
      if j != n {
        KeysDiffer(j, n, rs[j].item, rs[n].item);
      }
    }
  }

  /** The bytes an item's value stands for, if it stands for any. */
  ghost predicate Means(c: Codec, v: Value, b: Bytes) {
    match v
    case Utf8(text) => b == c.utf8(text)
    case Base64(text) => c.base64(text) == Some(b)
  }

  /** Exactly one entry of the manifest has this data key, and it is about this item. */
  ghost predicate ListedOnce(m: Materialized, r: Resolved, secret: bool, key: string) {
    if r.item.kind == EnvironmentVariable then
      exists e :: 0 <= e < |m.environment|
                  && m.environment[e] == EnvironmentEntry(r.item.target, r.source, secret, key)
                  && forall f :: 0 <= f < |m.environment| && f != e ==> m.environment[f].dataKey != key
    else
      exists e :: 0 <= e < |m.files| && ForItem(m.files[e], r, secret, key)
                  && forall f :: 0 <= f < |m.files| && f != e ==> m.files[f].dataKey != key
  }

  /** The entry says what the item says, field by field. */
  predicate ForItem(e: FileEntry, r: Resolved, secret: bool, key: string) {
    && e.key == r.item.key && e.kind == r.item.kind && e.target == r.item.target && e.source == r.source
    && e.mode == r.item.fileMode && e.owner == r.item.owner && e.group == r.item.group
    && e.secret == secret && e.dataKey == key
  }

  /**
   Every item but the skipped one has exactly one manifest entry, which carries the
   item's own target, source, mode, owner and group, and following it gives exactly
   the bytes of the item's value; through the Secret if the item is sensitive or a
   secret file, and through the ConfigMap otherwise.
   */
  lemma EveryItemIsFound(c: Codec, rs: seq<Resolved>, m: Materialized, n: nat)
    requires Lawful(c) && Fine(c, rs) && Correct(c, rs, m) && n < |rs|
    requires rs[n].item.kind == EnvironmentVariable ==> rs[n].item.target != "RUSTUP_HOME"
    ensures var i := rs[n].item;
            var secret := i.sensitive || i.kind == SecretFile;
            && ListedOnce(m, rs[n], secret, DataKey(n, i))
            && Lookup(c, m, secret, DataKey(n, i)).Some?
            && Means(c, i.value, Lookup(c, m, secret, DataKey(n, i)).value)
  {
    hide DataKey, Environment, Files, Exported;
    Located(c, rs, m, n);
    assert FaultAt(c, rs, n).None?;
    if IsEnv(rs[n].item) {
      EnvironmentLists(rs, n);
      var e :| 0 <= e < |m.environment| && m.environment[e] == EntryOf(n, rs[n]);
      forall f | 0 <= f < |m.environment| && f != e ensures m.environment[f].dataKey != DataKey(n, rs[n].item) {
        EnvironmentOnce(rs, if f < e then f else e, if f < e then e else f);
      }
    } else {
      FilesList(rs, n);
      var e :| 0 <= e < |m.files| && m.files[e] == FileOf(n, rs[n]);
      assert ForItem(m.files[e], rs[n], Secret(rs[n].item), DataKey(n, rs[n].item));
      forall f | 0 <= f < |m.files| && f != e ensures m.files[f].dataKey != DataKey(n, rs[n].item) {
        FilesOnce(rs, if f < e then f else e, if f < e then e else f);
      }
    }
  }

  /** The image's own Rust home is set by nothing that is injected. */
  lemma RustupHomeIsLeftOut(c: Codec, rs: seq<Resolved>, m: Materialized)
    requires Correct(c, rs, m)
    ensures "RUSTUP_HOME" !in m.environmentTargets
    ensures "RUSTUP_HOME" !in m.environmentSecret && "RUSTUP_HOME" !in m.environmentConfig
    ensures forall e :: 0 <= e < |m.environment| ==> m.environment[e].name != "RUSTUP_HOME"
  {
    hide Environment, Files, DataKey;
    forall e | 0 <= e < |m.environment| ensures m.environment[e].name != "RUSTUP_HOME" {
      var n := EnvironmentEntries(rs, e);
    }
  }

  lemma Located(c: Codec, rs: seq<Resolved>, m: Materialized, n: nat)
    requires Lawful(c) && Correct(c, rs, m) && n < |rs| && !Skipped(rs[n].item)
    ensures Lookup(c, m, Secret(rs[n].item), DataKey(n, rs[n].item)) == Some(BytesOf(c, rs[n].item))
  {
    hide DataKey, Environment, Files, Exported, BytesOf;
    ConfigEntry(c, rs, m, n);
  }

  /** A sensitive or secret item's data key is in the Secret, and nowhere else. */
  lemma SecretsStaySecret(c: Codec, rs: seq<Resolved>, m: Materialized, n: nat)
    requires Correct(c, rs, m) && n < |rs| && (rs[n].item.sensitive || rs[n].item.kind == SecretFile)
    requires rs[n].item.kind == EnvironmentVariable ==> rs[n].item.target != "RUSTUP_HOME"
    ensures var k := DataKey(n, rs[n].item);
            k in m.fileSecret && k !in m.fileConfig && k !in m.fileBinary
  {
    hide DataKey, Environment, Files, Exported;
    ConfigEntry(c, rs, m, n);
  }

  // ------------------------------------------------------------------------------- paths

  /** The components of a path, between its slashes. */
  function Components(s: string): seq<string> {
    if s == "" then [""]
    else if s[0] == '/' then [""] + Components(s[1..])
    else
      var rest := Components(s[1..]);
      if rest == [] then [[s[0]]] else [[s[0]] + rest[0]] + rest[1..]
  }

  lemma {:induction false} FirstComponent(s: string)
    ensures Components(s) != []
    ensures (Components(s)[0] == "") <==> (s == "" || s[0] == '/')
    ensures (Components(s)[0] == ".") <==> (s != "" && s[0] == '.' && (|s| == 1 || s[1] == '/'))
    ensures (Components(s)[0] == "..") <==>
              (|s| >= 2 && s[0] == '.' && s[1] == '.' && (|s| == 2 || s[2] == '/'))
  {
    if s != "" && s[0] != '/' {
      FirstComponent(s[1..]);
      var rest := Components(s[1..]);
      var first := Components(s)[0];
      assert first == [s[0]] + rest[0] && first[0] == s[0] && first[1..] == rest[0];
      assert first == "." <==> s[0] == '.' && rest[0] == "";
      assert first == ".." <==> s[0] == '.' && rest[0] == "." by { assert ".."[1..] == "."; }
    }
  }

  /** No component after the first is `..`, exactly when no slash is followed by one. */
  lemma {:induction false} LaterComponents(s: string)
    ensures Components(s) != []
    ensures ".." !in Components(s)[1..] <==> NoParents(s)
  {
    FirstComponent(s);
    if s != "" {
      LaterComponents(s[1..]);
      FirstComponent(s[1..]);
      var rest := Components(s[1..]);
      if s[0] == '/' {
        assert Components(s)[1..] == rest && rest == [rest[0]] + rest[1..];
        ParentsAfterSlash(s);
      } else {
        assert Components(s)[1..] == rest[1..];
        ParentsAfter(s);
      }
    }
  }

  lemma ParentsAfter(s: string)
    requires s != "" && s[0] != '/'
    ensures NoParents(s) <==> NoParents(s[1..])
  {
    var t := s[1..];
    if NoParents(s) {
      forall i | 0 <= i < |t| - 2 && t[i] == '/' && t[i + 1] == '.' && t[i + 2] == '.'
        ensures i + 3 < |t| && t[i + 3] != '/'
      {
        assert s[i + 1] == '/' && s[i + 2] == '.' && s[i + 3] == '.';
      }
    }
    if NoParents(t) {
      forall i | 0 <= i < |s| - 2 && s[i] == '/' && s[i + 1] == '.' && s[i + 2] == '.'
        ensures i + 3 < |s| && s[i + 3] != '/'
      {
        assert t[i - 1] == '/' && t[i] == '.' && t[i + 1] == '.';
      }
    }
  }

  lemma ParentsAfterSlash(s: string)
    requires s != "" && s[0] == '/'
    ensures NoParents(s) <==>
              NoParents(s[1..]) && !(|s| >= 3 && s[1] == '.' && s[2] == '.' && (|s| == 3 || s[3] == '/'))
  {
    var t := s[1..];
    if NoParents(s) {
      forall i | 0 <= i < |t| - 2 && t[i] == '/' && t[i + 1] == '.' && t[i + 2] == '.'
        ensures i + 3 < |t| && t[i + 3] != '/'
      {
        assert s[i + 1] == '/' && s[i + 2] == '.' && s[i + 3] == '.';
      }
    }
    if NoParents(t) {
      forall i | 1 <= i < |s| - 2 && s[i] == '/' && s[i + 1] == '.' && s[i + 2] == '.'
        ensures i + 3 < |s| && s[i + 3] != '/'
      {
        assert t[i - 1] == '/' && t[i] == '.' && t[i + 1] == '.';
      }
    }
  }

  /** A path is accepted exactly when it is absolute and no component of it is `..`. */
  lemma PathsAreConfined(s: string)
    ensures PathOk(s) <==> s != "" && s[0] == '/' && ".." !in Components(s)
  {
    FirstComponent(s);
    LaterComponents(s);
    var cs := Components(s);
    assert cs == [cs[0]] + cs[1..];
  }

  /** A name is accepted exactly when it is made of letters, digits and underscores, and no digit comes first. */
  lemma NamesAreIdentifiers(s: string)
    ensures NameOk(s) <==>
              && s != "" && !Q.IsDigit(s[0])
              && forall i :: 0 <= i < |s| ==> Q.IsLetter(s[i]) || Q.IsDigit(s[i]) || s[i] == '_'
  {
    if NameOk(s) {
      forall i | 0 <= i < |s| ensures Q.IsLetter(s[i]) || Q.IsDigit(s[i]) || s[i] == '_' {
        assert i == 0 || Word(s[i]) || '0' <= s[i] <= '9';
      }
    }
  }
}
