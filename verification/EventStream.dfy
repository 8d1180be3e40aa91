/**
 One server-sent event stream over an append-only log: whatever queries and
 notifications fail, it delivers exactly the events after its starting cursor, in
 order, once each.
 */
module EventStream {
  import opened Options

  const PAGE: nat := 100
  const U64_LIMIT: nat := 0x1_0000_0000_0000_0000

  /** An event of the stream's organization; `size` is its serialized length. */
  datatype Record = Record(id: nat, size: nat)

  datatype Emitted = Event(record: Record) | StreamError

  predicate Ordered(log: seq<Record>) { forall i, j :: 0 <= i < j < |log| ==> log[i].id < log[j].id }

  /** A page of events can be counted in 64 bits. */
  predicate Small(log: seq<Record>) { forall i :: 0 <= i < |log| ==> log[i].size * PAGE < U64_LIMIT }

  predicate IsAfter(r: Record, cursor: Option<nat>) { cursor.None? || r.id > cursor.value }

  function After(log: seq<Record>, cursor: Option<nat>): seq<Record> {
    if log == [] then []
    else if IsAfter(log[0], cursor) then [log[0]] + After(log[1..], cursor)
    else After(log[1..], cursor)
  }

  /** `list_events`: the first page after the cursor. */
  function ListEvents(log: seq<Record>, cursor: Option<nat>): seq<Record> {
    var rs := After(log, cursor);
    if |rs| <= PAGE then rs else rs[..PAGE]
  }

  function Bytes(rs: seq<Record>): nat { if rs == [] then 0 else rs[0].size + Bytes(rs[1..]) }

  lemma {:induction false} AfterIsOrdered(log: seq<Record>, cursor: Option<nat>)
    requires Ordered(log)
    ensures Ordered(After(log, cursor))
    ensures forall r :: r in After(log, cursor) <==> r in log && IsAfter(r, cursor)
  {
    if log != [] {
      AfterIsOrdered(log[1..], cursor);
      assert log == [log[0]] + log[1..];
      forall r | r in After(log[1..], cursor) ensures r.id > log[0].id {
        assert r in log[1..];
        var i :| 0 <= i < |log[1..]| && log[1..][i] == r;
        assert log[i + 1] == r;
      }
    }
  }

  lemma {:induction false} AfterAppend(log: seq<Record>, more: seq<Record>, cursor: Option<nat>)
    ensures After(log + more, cursor) == After(log, cursor) + After(more, cursor)
  {
    if log == [] {
      assert log + more == more;
    } else {
      assert (log + more)[1..] == log[1..] + more;
      AfterAppend(log[1..], more, cursor);
    }
  }

  lemma ListedAfterFirst(log: seq<Record>, cursor: Option<nat>, k: nat)
    requires Ordered(log) && k < |After(log, cursor)|
    ensures log != [] && log[0].id <= After(log, cursor)[k].id
  {
    AfterIsOrdered(log, cursor);
    assert After(log, cursor)[k] in After(log, cursor);
    var i :| 0 <= i < |log| && log[i] == After(log, cursor)[k];
  }

  /** Reading on from an event already listed gives what came after it. */
  lemma {:induction false} AfterResumes(log: seq<Record>, cursor: Option<nat>, k: nat)
    requires Ordered(log) && 0 < k <= |After(log, cursor)|
    ensures After(log, Some(After(log, cursor)[k - 1].id)) == After(log, cursor)[k..]
  {
    var rs, rest := After(log, cursor), After(log[1..], cursor);
    ListedAfterFirst(log, cursor, k - 1);
    assert After(log, Some(rs[k - 1].id)) == After(log[1..], Some(rs[k - 1].id));
    if IsAfter(log[0], cursor) {
      assert rs == [log[0]] + rest && rs[k..] == rest[k - 1..];
      if k == 1 {
        AllAfter(log[1..], cursor, log[0].id);
      } else {
        assert rs[k - 1] == rest[k - 2];
        AfterResumes(log[1..], cursor, k - 1);
      }
    } else {
      AfterResumes(log[1..], cursor, k);
    }
  }

  lemma {:induction false} AllAfter(log: seq<Record>, cursor: Option<nat>, id: nat)
    requires forall i :: 0 <= i < |log| ==> log[i].id > id
    requires cursor.None? || id > cursor.value
    ensures After(log, Some(id)) == log == After(log, cursor)
  {
    if log != [] {
      AllAfter(log[1..], cursor, id);
      assert log == [log[0]] + log[1..];
    }
  }

  lemma {:induction false} BytesFit(rs: seq<Record>, n: nat)
    requires |rs| <= n <= PAGE && Small(rs)
    ensures Bytes(rs) * PAGE <= n * U64_LIMIT && (rs != [] ==> Bytes(rs) * PAGE < n * U64_LIMIT)
  {
    if rs != [] {
      BytesFit(rs[1..], n - 1);
    }
  }

  lemma PageSmall(log: seq<Record>, cursor: Option<nat>)
    requires Ordered(log) && Small(log)
    ensures Small(ListEvents(log, cursor)) && Bytes(ListEvents(log, cursor)) < U64_LIMIT
  {
    var rs := ListEvents(log, cursor);
    AfterIsOrdered(log, cursor);
    forall i | 0 <= i < |rs| ensures rs[i].size * PAGE < U64_LIMIT {
      assert rs[i] in After(log, cursor) && rs[i] in log;
    }
    BytesFit(rs, PAGE);
  }

  function SaturatingSub(a: nat, b: nat): nat { if a >= b then a - b else 0 }

  function SaturatingAdd(a: nat, b: nat): nat { if a + b < U64_LIMIT then a + b else U64_LIMIT - 1 }

  class Stream {
    var log: seq<Record>
    var cursor: Option<nat>
    var pending: seq<Record>
    var pendingBytes: nat
    var initialQuery: bool
    var failures: nat
    ghost const start: Option<nat>
    ghost var delivered: seq<Record>

    ghost predicate Valid()
      reads this
    {
      && Ordered(log) && Small(log) && Small(pending)
      && delivered + pending <= After(log, start)
      && pendingBytes == Bytes(pending) < U64_LIMIT
      && cursor == (if delivered == [] then start else Some(delivered[|delivered| - 1].id))
    }

    constructor (log: seq<Record>, cursor: Option<nat>)
      requires Ordered(log) && Small(log)
      ensures Valid() && delivered == [] && start == cursor && this.log == log && initialQuery
    {
      this.log, this.cursor, start := log, cursor, cursor;
      pending, pendingBytes, initialQuery, delivered, failures := [], 0, true, [], 0;
    }

    /** The notifier or the query fails. */
    method Fails() returns (fails: bool)
      modifies this`failures
      ensures failures == old(failures) + if fails then 1 else 0
    {
      fails := *;
      failures := failures + if fails then 1 else 0;
    }

    /** Others append events; nothing is ever inserted before or removed. */
    method Interfere()
      requires Valid()
      modifies this`log
      ensures Valid() && old(log) <= log
    {
      var more: seq<Record> := *;
      if Ordered(log + more) && Small(log + more) {
        AfterAppend(log, more, start);
        log := log + more;
      }
    }

    /**
     One turn of the loop in `next_event`. What has been delivered only grows, and
     stays a prefix of the events after the starting cursor; a query that succeeds
     while events are outstanding brings the next of them; and an error is reported
     exactly when the notifier or the query has failed.
     */
    method Turn() returns (out: Option<Emitted>)
      requires Valid()
      modifies this
      ensures Valid() && old(log) <= log
      ensures out.Some? && out.value.Event? ==> delivered == old(delivered) + [out.value.record]
      ensures out.None? || out.value.StreamError? ==> delivered == old(delivered)
      ensures old(pending) != [] ==> out == Some(Event(old(pending)[0]))
      ensures out.None? ==> (pending == [] <==> |After(log, start)| == |delivered|)
      ensures failures == old(failures) + if out == Some(StreamError) then 1 else 0
    {
      if pending != [] {
        out := Pop();
        return;
      }
      if initialQuery {
        initialQuery := false;
      } else {
        Interfere();
        var unheard := Fails();
        if unheard {
          return Some(StreamError);
        }
      }
      Interfere();
      var fails := Fails();
      if fails {
        return Some(StreamError);
      }
      Fetch();
      return None;
    }

    method Pop() returns (out: Option<Emitted>)
      requires Valid() && pending != []
      modifies this
      ensures Valid() && log == old(log) && initialQuery == old(initialQuery) && failures == old(failures)
      ensures out == Some(Event(old(pending)[0])) && delivered == old(delivered) + [old(pending)[0]]
    {
      var record := pending[0];
      assert delivered + pending == (delivered + [record]) + pending[1..];
      pending := pending[1..];
      pendingBytes := SaturatingSub(pendingBytes, record.size);
      cursor := Some(record.id);
      delivered := delivered + [record];
      return Some(Event(record));
    }

    method Fetch()
      requires Valid() && pending == []
      modifies this
      ensures Valid() && log == old(log) && delivered == old(delivered) && initialQuery == old(initialQuery)
      ensures failures == old(failures)
      ensures pending == [] <==> |After(log, start)| == |delivered|
    {
      var records := ListEvents(log, cursor);
      PageSmall(log, cursor);
      assert delivered + pending == delivered;
      if delivered != [] {
        AfterResumes(log, start, |delivered|);
        assert After(log, start)[|delivered| - 1] == delivered[|delivered| - 1];
      }
      assert After(log, cursor) == After(log, start)[|delivered|..];
      assert delivered + records <= After(log, start);
      pending := pending + records;
      assert pending == records;
      pendingBytes := SaturatingAdd(pendingBytes, Bytes(records));
    }

    /**
     Any number of turns: nothing but the events after the starting cursor is
     delivered, in order and once each, and with two successful turns for each
     event that there was to begin with, all of those are.
     */
    method Deliver(turns: nat) returns (failed: nat, out: seq<Record>)
      requires Valid() && pending == [] && delivered == []
      modifies this
      ensures Valid() && old(log) <= log && failed <= turns && failed == failures - old(failures)
      ensures out == delivered && out <= After(log, start)
      ensures turns - failed >= 2 * |After(old(log), start)| ==> After(old(log), start) <= out
      ensures turns - failed >= 2 * |After(old(log), start)| && log == old(log) ==> out == After(log, start)
    {
      hide After, Ordered, Small, Bytes;
      failed, out := 0, [];
      ghost var goal := After(log, start);
      for n := 0 to turns
        invariant Valid() && old(log) <= log && failed <= n && out == delivered
        invariant failed == failures - old(failures)
        invariant |delivered| < |goal| ==> n - failed <= 2 * |delivered| + if pending != [] then 1 else 0
      {
        var event := Turn();
        Grows(old(log), log, start);
        if event.Some? {
          match event.value
          case StreamError => failed := failed + 1;
          case Event(record) => out := out + [record];
        }
      }
      Grows(old(log), log, start);
      Prefixes(delivered, pending, goal, After(log, start));
    }
  }

  lemma Grows(a: seq<Record>, b: seq<Record>, start: Option<nat>)
    requires a <= b
    ensures After(a, start) <= After(b, start)
  {
    hide After;
    AfterAppend(a, b[|a|..], start);
    assert b == a + b[|a|..];
  }

  lemma Prefixes(delivered: seq<Record>, pending: seq<Record>, goal: seq<Record>, all: seq<Record>)
    requires delivered + pending <= all && goal <= all
    ensures delivered <= all
    ensures |delivered| >= |goal| ==> goal <= delivered
  {
    assert delivered == (delivered + pending)[..|delivered|];
    if |delivered| >= |goal| {
      assert delivered[..|goal|] == all[..|goal|];
    }
  }
}
