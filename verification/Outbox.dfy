/** The outbox: identical messages in a row are numbered, and cut off after five. */
module Outbox {
  const LIMIT: nat := 5

  datatype Message = Message(recipient: string, content: string)

  /** `repeat` is the number in the suffix of the idempotency key. */
  datatype Record = Record(message: Message, repeat: nat)

  /** Length of the run of `m` at the end of the outbox. */
  function Trailing(records: seq<Record>, m: Message): (n: nat)
    ensures n <= |records|
    ensures forall i :: |records| - n <= i < |records| ==> records[i].message == m
    ensures n < |records| ==> records[|records| - n - 1].message != m
  {
    if records == [] || records[|records| - 1].message != m then 0
    else 1 + Trailing(records[..|records| - 1], m)
  }

  /** The outbox after a request. */
  function Enqueued(records: seq<Record>, m: Message): seq<Record> {
    if Trailing(records, m) >= LIMIT then records else records + [Record(m, Trailing(records, m) + 1)]
  }

  class Store {
    var records: seq<Record>

    constructor ()
      ensures records == []
    {
      records := [];
    }

    /** Count the identical records from the end, then append with the next number or refuse. */
    method EnqueueOutbox(m: Message) returns (queued: bool)
      modifies this
      ensures records == Enqueued(old(records), m)
      ensures queued <==> Trailing(old(records), m) < LIMIT
    {
      var repeated := 0;
      while repeated < |records| && records[|records| - 1 - repeated].message == m
        invariant 0 <= repeated <= |records|
        invariant Trailing(records, m) == repeated + Trailing(records[..|records| - repeated], m)
        decreases |records| - repeated
      {
        assert records[..|records| - repeated][..|records| - repeated - 1] == records[..|records| - repeated - 1];
        repeated := repeated + 1;
      }
      if repeated >= LIMIT {
        return false;
      }
      records := records + [Record(m, repeated + 1)];
      return true;
    }
  }

  function EnqueueAll(ms: seq<Message>): seq<Record> {
    if ms == [] then [] else Enqueued(EnqueueAll(ms[..|ms| - 1]), ms[|ms| - 1])
  }

  /** Record `i` continues the run of its predecessor. */
  predicate Continues(records: seq<Record>, i: int) {
    0 < i < |records| && records[i].message == records[i - 1].message
  }

  predicate NumberAt(records: seq<Record>, i: nat)
    requires i < |records|
  {
    && 1 <= records[i].repeat <= LIMIT
    && records[i].repeat == (if Continues(records, i) then records[i - 1].repeat + 1 else 1)
  }

  /** Each maximal run of identical records carries the numbers 1, 2, ... in order. */
  predicate Numbered(records: seq<Record>) {
    forall i :: 0 <= i < |records| ==> NumberAt(records, i)
  }

  lemma NumberedFront(records: seq<Record>)
    requires records != [] && Numbered(records)
    ensures Numbered(records[..|records| - 1])
  {
    var front := records[..|records| - 1];
    forall i | 0 <= i < |front|
      ensures NumberAt(front, i)
    {
      assert NumberAt(records, i);
    }
  }

  lemma {:induction false} TrailingIsLastNumber(records: seq<Record>, m: Message)
    requires Numbered(records)
    ensures Trailing(records, m) ==
              if records != [] && records[|records| - 1].message == m then records[|records| - 1].repeat else 0
  {
    if records != [] && records[|records| - 1].message == m {
      NumberedFront(records);
      TrailingIsLastNumber(records[..|records| - 1], m);
      assert NumberAt(records, |records| - 1);
    }
  }

  lemma EnqueueKeepsNumbered(records: seq<Record>, m: Message)
    requires Numbered(records)
    ensures Numbered(Enqueued(records, m))
  {
    TrailingIsLastNumber(records, m);
    var t := Enqueued(records, m);
    forall i | 0 <= i < |t|
      ensures NumberAt(t, i)
    {
      if i < |records| {
        assert NumberAt(records, i);
      }
    }
  }

  /** After any sequence of requests every maximal identical run is numbered from one, up to five. */
  lemma {:induction false} RunsAreNumbered(ms: seq<Message>)
    ensures Numbered(EnqueueAll(ms))
  {
    if ms != [] {
      RunsAreNumbered(ms[..|ms| - 1]);
      EnqueueKeepsNumbered(EnqueueAll(ms[..|ms| - 1]), ms[|ms| - 1]);
    }
  }

  lemma {:induction false} RunIsCounted(records: seq<Record>, i: nat, n: nat)
    requires Numbered(records) && i + n < |records|
    requires forall k :: i <= k <= i + n ==> records[k].message == records[i].message
    ensures records[i + n].repeat >= n + 1
  {
    assert NumberAt(records, i + n);
    if n > 0 {
      RunIsCounted(records, i, n - 1);
    }
  }

  /** No six consecutive records share recipient and content. */
  lemma NoSixInARow(ms: seq<Message>, i: nat)
    requires i + LIMIT < |EnqueueAll(ms)|
    ensures exists k :: i < k <= i + LIMIT && EnqueueAll(ms)[k].message != EnqueueAll(ms)[i].message
  {
    RunsAreNumbered(ms);
    var records := EnqueueAll(ms);
    assert NumberAt(records, i + LIMIT);
    if forall k :: i < k <= i + LIMIT ==> records[k].message == records[i].message {
      RunIsCounted(records, i, LIMIT);
    }
  }

  /** A request is refused exactly when the last five records are all identical to it. */
  lemma RefusedExactly(ms: seq<Message>, m: Message)
    ensures var records := EnqueueAll(ms);
      Enqueued(records, m) == records <==>
        |records| >= LIMIT && forall k :: |records| - LIMIT <= k < |records| ==> records[k].message == m
  {
  }
}
