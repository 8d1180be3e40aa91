/** Injection items, their destinations, and the order destinations are listed in. */
module Injections {
  import opened Options

  datatype Scope = Organization | User | Workspace
  datatype Kind = EnvironmentVariable | SecretFile | ConfigFile | SshPublicKey
  datatype Value = Utf8(text: string) | Base64(text: string)

  datatype Item = Item(
    key: string, kind: Kind, target: string, value: Value, sensitive: bool, locked: bool, version: nat,
    fileMode: Option<nat>, owner: Option<string>, group: Option<string>,
    templateSelector: Option<string>, labels: map<string, string>)

  datatype Resolved = Resolved(source: Scope, item: Item)

  datatype Destination = Destination(file: bool, target: string)

  /** `destination_kind`: every kind of file shares one namespace of paths. */
  function DestinationOf(i: Item): Destination { Destination(i.kind != EnvironmentVariable, i.target) }

  predicate TextBefore(a: string, b: string) {
    b != "" && (a == "" || a[0] < b[0] || (a[0] == b[0] && TextBefore(a[1..], b[1..])))
  }

  /** Environment variables before files, then by text. */
  predicate Before(a: Destination, b: Destination) {
    (!a.file && b.file) || (a.file == b.file && TextBefore(a.target, b.target))
  }

  lemma {:induction false} TextIrreflexive(a: string)
    ensures !TextBefore(a, a)
  {
    if a != "" {
      TextIrreflexive(a[1..]);
    }
  }

  lemma {:induction false} TextTransitive(a: string, b: string, c: string)
    requires TextBefore(a, b) && TextBefore(b, c)
    ensures TextBefore(a, c)
  {
    if a != "" && a[0] == b[0] == c[0] {
      TextTransitive(a[1..], b[1..], c[1..]);
    }
  }

  lemma {:induction false} TextTotal(a: string, b: string)
    ensures a == b || TextBefore(a, b) || TextBefore(b, a)
  {
    if a != "" && b != "" && a[0] == b[0] {
      TextTotal(a[1..], b[1..]);
      assert a == [a[0]] + a[1..] && b == [b[0]] + b[1..];
    }
  }

  lemma BeforeTransitive(a: Destination, b: Destination, c: Destination)
    requires Before(a, b) && Before(b, c)
    ensures Before(a, c) && a != c
  {
    if a.file == b.file == c.file {
      TextTransitive(a.target, b.target, c.target);
    }
    TextIrreflexive(a.target);
  }

  lemma BeforeTotal(a: Destination, b: Destination)
    ensures a == b || Before(a, b) || Before(b, a)
    ensures Before(a, b) ==> a != b && !Before(b, a)
  {
    TextTotal(a.target, b.target);
    TextIrreflexive(a.target);
    if TextBefore(a.target, b.target) && TextBefore(b.target, a.target) {
      TextTransitive(a.target, b.target, a.target);
    }
  }

  predicate Ordered(ds: seq<Destination>) { forall i, j :: 0 <= i < j < |ds| ==> Before(ds[i], ds[j]) }

  function Insert(d: Destination, ds: seq<Destination>): (r: seq<Destination>)
  {
    if ds == [] || Before(d, ds[0]) then [d] + ds
    else if d == ds[0] then ds
    else [ds[0]] + Insert(d, ds[1..])
  }

  lemma {:induction false} InsertAdds(d: Destination, ds: seq<Destination>)
    ensures forall x :: x in Insert(d, ds) <==> x == d || x in ds
  {
    if ds != [] && !Before(d, ds[0]) && d != ds[0] {
      InsertAdds(d, ds[1..]);
      assert ds == [ds[0]] + ds[1..];
    }
  }

  lemma {:induction false} InsertOrders(d: Destination, ds: seq<Destination>)
    requires Ordered(ds)
    ensures Ordered(Insert(d, ds))
  {
    if ds == [] {
    } else if Before(d, ds[0]) {
      forall j | 0 <= j < |ds| ensures Before(d, ds[j]) {
        if j > 0 {
          BeforeTransitive(d, ds[0], ds[j]);
        }
      }
    } else if d != ds[0] {
      var r := Insert(d, ds[1..]);
      InsertOrders(d, ds[1..]);
      InsertAdds(d, ds[1..]);
      BeforeTotal(d, ds[0]);
      forall x | x in r ensures Before(ds[0], x) {
        if x != d {
          var j :| 0 <= j < |ds[1..]| && ds[1..][j] == x;
          assert ds[j + 1] == x;
        }
      }
    }
  }

  /** An ordered list is determined by its elements. */
  lemma {:induction false} OrderedUnique(a: seq<Destination>, b: seq<Destination>)
    requires Ordered(a) && Ordered(b) && forall x :: x in a <==> x in b
    ensures a == b
  {
    assert b != [] ==> b[0] in b && b[0] in a;
    if a != [] {
      assert a[0] in a && a[0] in b;
      assert b != [] && b[0] in b && b[0] in a;
      FirstIsLeast(a, b[0]);
      FirstIsLeast(b, a[0]);
      BeforeTotal(a[0], b[0]);
      RestElements(a);
      RestElements(b);
      OrderedUnique(a[1..], b[1..]);
      assert a == [a[0]] + a[1..] && b == [b[0]] + b[1..];
    }
  }

  lemma FirstIsLeast(a: seq<Destination>, x: Destination)
    requires Ordered(a) && x in a
    ensures x == a[0] || Before(a[0], x)
  {
    var i :| 0 <= i < |a| && a[i] == x;
  }

  lemma RestElements(a: seq<Destination>)
    requires Ordered(a) && a != []
    ensures Ordered(a[1..]) && forall x :: x in a[1..] <==> x in a && x != a[0]
  {
    forall i | 1 <= i < |a| ensures a[i] != a[0] && a[i] in a[1..] {
      BeforeTotal(a[0], a[i]);
      assert a[1..][i - 1] == a[i];
    }
  }
}
