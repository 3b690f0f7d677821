/**
 The append-only event ledger and its two readers: the status look-up, where the last
 record wins, and the materialised fold, where the first ingest wins.
 */
module EventLedger {
  import opened Basics
  import Statuses

  type Key = Statuses.Id

  datatype EventStatus = Queued | Processing | Failed | Completed | Ignored

  datatype Entry =
    | Ingested(key: Key, fields: map<nat, string>)
    | StatusSet(key: Key, status: EventStatus)
    | Enriched(key: Key, fields: map<nat, string>)

  predicate Pending(s: EventStatus) {
    s.Queued? || s.Processing? || s.Failed?
  }

  predicate IsIngested(l: seq<Entry>, k: Key) {
    exists i :: 0 <= i < |l| && l[i].Ingested? && l[i].key == k
  }

  predicate Mentions(l: seq<Entry>, k: Key) {
    exists i :: 0 <= i < |l| && l[i].key == k
  }

  /** The entry may be appended: an ingest of a new key, or a later record of an ingested one. */
  predicate Appendable(l: seq<Entry>, e: Entry) {
    if e.Ingested? then !Mentions(l, e.key) else IsIngested(l, e.key)
  }

  /** A ledger that the three writers can produce. */
  predicate WellFormed(l: seq<Entry>) {
    forall i :: 0 <= i < |l| ==> Appendable(l[..i], l[i])
  }

  lemma WellFormedAppend(l: seq<Entry>, e: Entry)
    requires WellFormed(l) && Appendable(l, e)
    ensures WellFormed(l + [e])
  {
    var t := l + [e];
    forall i | 0 <= i < |t|
      ensures Appendable(t[..i], t[i])
    {
      assert t[..i] == l[..i];
    }
  }

  lemma WellFormedFront(l: seq<Entry>)
    requires l != [] && WellFormed(l)
    ensures WellFormed(l[..|l| - 1]) && Appendable(l[..|l| - 1], l[|l| - 1])
  {
    var front := l[..|l| - 1];
    forall i | 0 <= i < |front|
      ensures Appendable(front[..i], front[i])
    {
      assert front[..i] == l[..i];
    }
  }

  /** `event_processing_status`: the last status or ingest of the key. */
  function LastStatus(l: seq<Entry>, k: Key): Option<EventStatus> {
    if l == [] then None
    else
      var e := l[|l| - 1];
      if e.key == k && e.Ingested? then Some(Queued)
      else if e.key == k && e.StatusSet? then Some(e.status)
      else LastStatus(l[..|l| - 1], k)
  }

  /** The dictionaries of the materialised fold; `order` is their insertion order. */
  datatype View = View(order: seq<Key>, records: map<Key, map<nat, string>>, statuses: map<Key, EventStatus>)

  function Folded(v: View, e: Entry): View {
    match e
    case Ingested(k, fields) =>
      View(
        if k in v.records then v.order else v.order + [k],
        if k in v.records then v.records else v.records[k := fields],
        if k in v.statuses then v.statuses else v.statuses[k := Queued])
    case Enriched(k, fields) => if k in v.records then v.(records := v.records[k := v.records[k] + fields]) else v
    case StatusSet(k, s) => v.(statuses := v.statuses[k := s])
  }

  function Materialized(l: seq<Entry>): View {
    if l == [] then View([], map[], map[]) else Folded(Materialized(l[..|l| - 1]), l[|l| - 1])
  }

  /** The keys whose materialised status is pending, in the order of `order`. */
  function PendingKeys(order: seq<Key>, statuses: map<Key, EventStatus>): seq<Key> {
    if order == [] then []
    else
      var k := order[|order| - 1];
      PendingKeys(order[..|order| - 1], statuses) + (if k in statuses && Pending(statuses[k]) then [k] else [])
  }

  class Ledger {
    var entries: seq<Entry>

    ghost predicate Valid()
      reads this
    {
      WellFormed(entries)
    }

    constructor ()
      ensures Valid() && entries == []
    {
      entries := [];
    }

    /** Ingest an event; a missing key raises, a key that is already mentioned is a duplicate. */
    method IngestEvent(key: Option<Key>, fields: map<nat, string>) returns (accepted: Option<bool>)
      requires Valid()
      modifies this
      ensures Valid()
      ensures accepted.None? <==> key.None?
      ensures accepted == Some(true) <==> key.Some? && !Mentions(old(entries), key.value)
      ensures entries == if accepted == Some(true) then old(entries) + [Ingested(key.value, fields)] else old(entries)
    {
      if key.None? {
        return None;
      }
      for i := 0 to |entries|
        invariant entries == old(entries)
        invariant forall j :: 0 <= j < i ==> entries[j].key != key.value
      {
        if entries[i].key == key.value {
          return Some(false);
        }
      }
      WellFormedAppend(entries, Ingested(key.value, fields));
      entries := entries + [Ingested(key.value, fields)];
      return Some(true);
    }

    /** Append a later record; an unknown key raises. */
    method Record(e: Entry) returns (known: bool)
      requires Valid() && !e.Ingested?
      modifies this
      ensures Valid()
      ensures known <==> IsIngested(old(entries), e.key)
      ensures entries == if known then old(entries) + [e] else old(entries)
    {
      if !IsIngested(entries, e.key) {
        return false;
      }
      WellFormedAppend(entries, e);
      entries := entries + [e];
      return true;
    }

    method EventProcessingStatus(k: Key) returns (status: Option<EventStatus>)
      ensures status == LastStatus(entries, k)
    {
      status := None;
      for i := 0 to |entries|
        invariant status == LastStatus(entries[..i], k)
      {
        assert entries[..i + 1][..i] == entries[..i];
        var e := entries[i];
        if e.key == k && e.Ingested? {
          status := Some(Queued);
        } else if e.key == k && e.StatusSet? {
          status := Some(e.status);
        }
      }
      assert entries[..|entries|] == entries;
    }

    method MaterializedEvents() returns (v: View)
      ensures v == Materialized(entries)
    {
      v := View([], map[], map[]);
      for i := 0 to |entries|
        invariant v == Materialized(entries[..i])
      {
        assert entries[..i + 1][..i] == entries[..i];
        match entries[i] {
          case Ingested(k, fields) =>
            if k !in v.records {
              v := v.(order := v.order + [k], records := v.records[k := fields]);
            }
            if k !in v.statuses {
              v := v.(statuses := v.statuses[k := Queued]);
            }
          case Enriched(k, fields) =>
            if k in v.records {
              v := v.(records := v.records[k := v.records[k] + fields]);
            }
          case StatusSet(k, s) =>
            v := v.(statuses := v.statuses[k := s]);
        }
      }
      assert entries[..|entries|] == entries;
    }

    method PendingEvents() returns (keys: seq<Key>)
      ensures keys == PendingKeys(Materialized(entries).order, Materialized(entries).statuses)
    {
      var v := MaterializedEvents();
      keys := [];
      for i := 0 to |v.order|
        invariant keys == PendingKeys(v.order[..i], v.statuses)
      {
        assert v.order[..i + 1][..i] == v.order[..i];
        var k := v.order[i];
        if k in v.statuses && Pending(v.statuses[k]) {
          keys := keys + [k];
        }
      }
      assert v.order[..|v.order|] == v.order;
    }
  }

  ghost predicate ViewMatches(l: seq<Entry>, v: View) {
    && (forall i, j :: 0 <= i < j < |v.order| ==> v.order[i] != v.order[j])
    && (forall i :: 0 <= i < |v.order| ==> v.order[i] in v.records)
    && (forall k :: k in v.records ==> k in v.order)
    && (forall k :: k in v.statuses <==> k in v.records)
    && (forall k :: k in v.records <==> IsIngested(l, k))
  }

  lemma IngestedGrows(l: seq<Entry>, e: Entry, k: Key)
    ensures IsIngested(l + [e], k) <==> IsIngested(l, k) || (e.Ingested? && e.key == k)
  {
    var t := l + [e];
    if IsIngested(l, k) {
      var i :| 0 <= i < |l| && l[i].Ingested? && l[i].key == k;
      assert t[i] == l[i];
    }
    if e.Ingested? && e.key == k {
      assert t[|l|] == e;
    }
  }

  /**
   The readers agree on every ledger that the writers can produce: for each key the last-write-wins status
   is the materialised one, and exactly the ingested keys have one.
   */
  lemma {:induction false} ReadersAgree(l: seq<Entry>)
    requires WellFormed(l)
    ensures ViewMatches(l, Materialized(l))
    ensures forall k :: LastStatus(l, k).Some? <==> k in Materialized(l).statuses
    ensures forall k :: k in Materialized(l).statuses ==> LastStatus(l, k) == Some(Materialized(l).statuses[k])
  {
    if l != [] {
      var front, e := l[..|l| - 1], l[|l| - 1];
      WellFormedFront(l);
      ReadersAgree(front);
      assert l == front + [e];
      FoldMatches(front, Materialized(front), e);
      assert !e.Ingested? ==> e.key in Materialized(front).records;
      assert e.Ingested? ==> !IsIngested(front, e.key);
    }
  }

  lemma FoldMatches(l: seq<Entry>, v: View, e: Entry)
    requires ViewMatches(l, v) && Appendable(l, e)
    ensures ViewMatches(l + [e], Folded(v, e))
  {
    forall k
      ensures IsIngested(l + [e], k) <==> IsIngested(l, k) || (e.Ingested? && e.key == k)
    {
      IngestedGrows(l, e, k);
    }
    if e.Ingested? {
      assert !IsIngested(l, e.key);
    }
    var t := Folded(v, e);
    forall k | k in t.records
      ensures k in t.order
    {
      if k in v.records {
        assert k in v.order;
      } else {
        assert t.order[|v.order|] == k;
      }
    }
  }

  /** The keys in the order of their first ingest. */
  function IngestOrder(l: seq<Entry>): seq<Key> {
    if l == [] then []
    else
      IngestOrder(l[..|l| - 1]) +
      (if l[|l| - 1].Ingested? && !IsIngested(l[..|l| - 1], l[|l| - 1].key) then [l[|l| - 1].key] else [])
  }

  /** The keys of `order` that are pending by the status look-up. */
  function PendingByStatus(l: seq<Entry>, order: seq<Key>): seq<Key> {
    if order == [] then []
    else
      var k := order[|order| - 1];
      PendingByStatus(l, order[..|order| - 1]) +
      (if LastStatus(l, k).Some? && Pending(LastStatus(l, k).value) then [k] else [])
  }

  lemma {:induction false} OrderIsIngestOrder(l: seq<Entry>)
    requires WellFormed(l)
    ensures Materialized(l).order == IngestOrder(l)
  {
    if l != [] {
      WellFormedFront(l);
      OrderIsIngestOrder(l[..|l| - 1]);
      ReadersAgree(l[..|l| - 1]);
    }
  }

  lemma {:induction false} SamePending(l: seq<Entry>, order: seq<Key>)
    requires WellFormed(l)
    ensures PendingKeys(order, Materialized(l).statuses) == PendingByStatus(l, order)
  {
    if order != [] {
      SamePending(l, order[..|order| - 1]);
      ReadersAgree(l);
    }
  }

  /** The pending list names exactly the keys whose last status is queued, processing or failed, in ingest order. */
  lemma PendingExactly(l: seq<Entry>)
    requires WellFormed(l)
    ensures PendingKeys(Materialized(l).order, Materialized(l).statuses) == PendingByStatus(l, IngestOrder(l))
  {
    OrderIsIngestOrder(l);
    SamePending(l, IngestOrder(l));
  }

  lemma {:induction false} PendingMembers(l: seq<Entry>, order: seq<Key>, k: Key)
    ensures k in PendingByStatus(l, order) <==> k in order && LastStatus(l, k).Some? && Pending(LastStatus(l, k).value)
  {
    if order != [] {
      PendingMembers(l, order[..|order| - 1], k);
    }
  }

  /** Without the writers' guard the readers part: a second ingest after a status resets only one of them. */
  lemma SecondIngestSplitsReaders(k: Key, s: EventStatus)
    requires !s.Queued?
    ensures var l := [Ingested(k, map[]), StatusSet(k, s), Ingested(k, map[])];
      && !WellFormed(l)
      && LastStatus(l, k) == Some(Queued) && k in Materialized(l).statuses && Materialized(l).statuses[k] == s
  {
    var l := [Ingested(k, map[]), StatusSet(k, s), Ingested(k, map[])];
    assert l[..2] == [Ingested(k, map[]), StatusSet(k, s)] && l[..2][..1] == [Ingested(k, map[])];
    assert l[..2][..1][..0] == [];
    assert l[..2][0].key == k && Mentions(l[..2], k);
    assert !Appendable(l[..2], l[2]);
  }
}
