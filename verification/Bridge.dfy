/**
 The bridge that adds one turn to an existing thread, and the receipt journal that makes
 the request idempotent. Fingerprints are an injective encoding of what they hash.
 */
module Bridge {
  import opened Basics
  import Statuses

  type Id = Statuses.Id

  datatype ThreadStatus = Unknown | Busy | Completed | OtherTerminal | Idle

  datatype Item = Item(message: bool, final: bool, text: string)

  datatype TurnState = TurnState(turn: Id, status: ThreadStatus, items: seq<Item>)

  /** `effective` is the execution evidence for the thread, where there is any. */
  datatype ThreadState = ThreadState(
    thread: Id,
    status: ThreadStatus,
    turns: seq<TurnState>,
    effective: Option<ThreadStatus>)

  datatype Fingerprint = Fingerprint(
    thread: Id, status: ThreadStatus, turn: Option<Id>, turnStatus: Option<ThreadStatus>)

  datatype RequestId = Direct(id: Id) | Continue(monitor: Id, fingerprint: Fingerprint)

  datatype Request = Request(id: RequestId, thread: Id, prompt: string)

  datatype ReceiptStatus = Done | WasBusy | Failed | RequiresReadback

  datatype Receipt = Receipt(
    request: RequestId, thread: Id, status: ReceiptStatus, turn: Option<Id>, output: string, replayed: bool)

  function EffectiveStatus(s: ThreadState): ThreadStatus {
    if s.effective.Some? then s.effective.value
    else if s.turns != [] then s.turns[|s.turns| - 1].status
    else s.status
  }

  /** The last item that satisfies both flags. */
  function LastItem(items: seq<Item>, final: bool): (r: Option<Item>)
    ensures r.Some? ==> r.value in items && r.value.message && (final ==> r.value.final)
    ensures r.None? ==> forall i :: 0 <= i < |items| ==> !(items[i].message && (final ==> items[i].final))
  {
    if items == [] then None
    else
      var last := items[|items| - 1];
      if last.message && (final ==> last.final) then Some(last) else LastItem(items[..|items| - 1], final)
  }

  /** The text of the last final answer of the latest turn with this id, else of its last message. */
  function FinalOutput(turns: seq<TurnState>, turn: Id): string {
    if turns == [] then ""
    else
      var last := turns[|turns| - 1];
      if last.turn != turn then FinalOutput(turns[..|turns| - 1], turn)
      else
        var final := LastItem(last.items, true);
        var selected := if final.Some? then final else LastItem(last.items, false);
        if selected.Some? then selected.value.text else ""
  }

  /** An output is never taken from another turn, nor a message preferred over a final answer. */
  lemma {:induction false} OutputIsExact(turns: seq<TurnState>, turn: Id)
    requires FinalOutput(turns, turn) != ""
    ensures exists t, m ::
              t in turns && t.turn == turn && m in t.items && m.message && m.text == FinalOutput(turns, turn)
              && (m.final || forall o :: o in t.items && o.message ==> !o.final)
  {
    var last := turns[|turns| - 1];
    if last.turn != turn {
      OutputIsExact(turns[..|turns| - 1], turn);
      var t, m :| t in turns[..|turns| - 1] && t.turn == turn && m in t.items && m.message
        && m.text == FinalOutput(turns[..|turns| - 1], turn)
        && (m.final || forall o :: o in t.items && o.message ==> !o.final);
      assert t in turns && m in t.items;
    } else {
      var final := LastItem(last.items, true);
      var m := if final.Some? then final.value else LastItem(last.items, false).value;
      assert last in turns && m in last.items;
    }
  }

  predicate JournalTerminal(s: ReceiptStatus) {
    s.Done? || s.Failed? || s.RequiresReadback?
  }

  predicate Answers(line: Receipt, id: RequestId) {
    line.request == id && JournalTerminal(line.status)
  }

  /** The last terminal line for a request. */
  function LastTerminal(lines: seq<Receipt>, id: RequestId): (r: Option<Receipt>)
    ensures r.Some? <==> exists i :: 0 <= i < |lines| && Answers(lines[i], id)
    ensures r.Some? ==> r.value in lines && Answers(r.value, id)
  {
    if lines == [] then None
    else if Answers(lines[|lines| - 1], id) then Some(lines[|lines| - 1])
    else LastTerminal(lines[..|lines| - 1], id)
  }

  class ReceiptJournal {
    var lines: seq<Receipt>

    constructor ()
      ensures lines == []
    {
      lines := [];
    }

    /** Scan the whole file; later lines overwrite earlier ones. */
    method FindTerminal(id: RequestId) returns (found: Option<Receipt>)
      ensures found == LastTerminal(lines, id)
    {
      found := None;
      for i := 0 to |lines|
        invariant found == LastTerminal(lines[..i], id)
      {
        assert lines[..i + 1][..i] == lines[..i];
        if lines[i].request == id && JournalTerminal(lines[i].status) {
          found := Some(lines[i]);
        }
      }
      assert lines[..|lines|] == lines;
    }

    method Append(r: Receipt)
      modifies this
      ensures lines == old(lines) + [r]
    {
      lines := lines + [r];
    }
  }

  /**
   What the transport and the file system do during one call: the thread before, the started turn (absent
   where the transport raises), the thread after, whether the journal line is written, and whether the
   process lives to return the receipt it wrote.
   */
  datatype Call = Call(
    before: Option<ThreadState>,
    started: Option<(Id, Option<Id>)>,
    after: Option<ThreadState>,
    written: bool,
    returned: bool)

  predicate Occupied(s: ThreadState) {
    EffectiveStatus(s).Busy? || s.status.Busy?
  }

  /** The receipt of a call that did start a turn. */
  function StartedReceipt(req: Request, call: Call): (r: Receipt)
    ensures r.request == req.id && JournalTerminal(r.status)
  {
    if call.started.None? || call.started.value.0 != req.thread || call.started.value.1.None? || call.after.None? then
      Receipt(req.id, req.thread, Failed, None, "", false)
    else
      var turn := call.started.value.1.value;
      var output := FinalOutput(call.after.value.turns, turn);
      Receipt(req.id, req.thread, if output == "" then RequiresReadback else Done, Some(turn), output, false)
  }

  /** The thread can be read and takes a turn. */
  predicate Idles(call: Call) {
    call.before.Some? && !EffectiveStatus(call.before.value).Unknown? && !Occupied(call.before.value)
  }

  /** The transport is asked for a turn. */
  predicate Starts(lines: seq<Receipt>, req: Request, call: Call) {
    LastTerminal(lines, req.id).None? && Idles(call)
  }

  /** What the caller gets back; nothing where the call raises. */
  function CallReceipt(lines: seq<Receipt>, req: Request, call: Call): Option<Receipt> {
    var previous := LastTerminal(lines, req.id);
    if previous.Some? then Some(previous.value.(replayed := true))
    else if call.before.None? then None
    else if EffectiveStatus(call.before.value).Unknown? then
      Some(Receipt(req.id, req.thread, RequiresReadback, None, "", false))
    else if Occupied(call.before.value) then Some(Receipt(req.id, req.thread, WasBusy, None, "", false))
    else if call.written && call.returned then Some(StartedReceipt(req, call))
    else None
  }

  /** A fresh receipt that reports completion carries the exact output of the turn that this call started. */
  lemma DoneMeansOutput(lines: seq<Receipt>, req: Request, call: Call)
    requires CallReceipt(lines, req, call).Some?
    ensures var r := CallReceipt(lines, req, call).value;
      r.status.Done? && !r.replayed ==>
        && Starts(lines, req, call) && call.started.Some? && call.after.Some?
        && call.started.value == (req.thread, r.turn) && r.turn.Some?
        && r.output == FinalOutput(call.after.value.turns, r.turn.value) != ""
  {
  }

  /** One call with its request. */
  datatype Attempt = Attempt(request: Request, call: Call)

  function NextLines(lines: seq<Receipt>, a: Attempt): seq<Receipt> {
    if Starts(lines, a.request, a.call) && a.call.written then lines + [StartedReceipt(a.request, a.call)] else lines
  }

  class ExistingThreadBridge {
    const journal: ReceiptJournal
    var starts: seq<RequestId>

    constructor (j: ReceiptJournal)
      ensures journal == j && starts == []
    {
      journal, starts := j, [];
    }

    /** Resume a thread once per request; no receipt is returned where the call raises. */
    method ResumeExisting(req: Request, call: Call) returns (receipt: Option<Receipt>)
      modifies this, journal
      ensures starts == old(starts) + (if Starts(old(journal.lines), req, call) then [req.id] else [])
      ensures journal.lines == NextLines(old(journal.lines), Attempt(req, call))
      ensures receipt == CallReceipt(old(journal.lines), req, call)
    {
      var previous := journal.FindTerminal(req.id);
      if previous.Some? {
        return Some(previous.value.(replayed := true));
      }
      if call.before.None? {
        return None;
      }
      if EffectiveStatus(call.before.value).Unknown? {
        return Some(Receipt(req.id, req.thread, RequiresReadback, None, "", false));
      }
      if EffectiveStatus(call.before.value).Busy? || call.before.value.status.Busy? {
        return Some(Receipt(req.id, req.thread, WasBusy, None, "", false));
      }
      starts := starts + [req.id];
      var r := Receipt(req.id, req.thread, Failed, None, "", false);
      if call.started.Some? && call.started.value.0 == req.thread && call.started.value.1.Some? && call.after.Some? {
        var turn := call.started.value.1.value;
        var output := FinalOutput(call.after.value.turns, turn);
        if output == "" {
          r := Receipt(req.id, req.thread, RequiresReadback, Some(turn), "", false);
        } else {
          r := Receipt(req.id, req.thread, Done, Some(turn), output, false);
        }
      }
      if !call.written {
        return None;
      }
      journal.Append(r);
      return if call.returned then Some(r) else None;
    }
  }

  // Any sequence of calls, one after the other

  /** The journal after these attempts. */
  function Lines(attempts: seq<Attempt>): seq<Receipt> {
    if attempts == [] then [] else NextLines(Lines(attempts[..|attempts| - 1]), attempts[|attempts| - 1])
  }

  /** An attempt leaves a journalled receipt alone, and journals one exactly when it starts and is written. */
  lemma AttemptJournals(lines: seq<Receipt>, a: Attempt, id: RequestId)
    ensures LastTerminal(lines, id).Some? ==> LastTerminal(NextLines(lines, a), id) == LastTerminal(lines, id)
    ensures LastTerminal(lines, id).None? ==>
              (LastTerminal(NextLines(lines, a), id).Some? <==>
                 a.request.id == id && Starts(lines, a.request, a.call) && a.call.written)
  {
    if Starts(lines, a.request, a.call) && a.call.written {
      assert NextLines(lines, a)[..|lines|] == lines;
    }
  }

  /** How often the transport was asked for a turn for this request. */
  function StartCount(attempts: seq<Attempt>, id: RequestId): nat {
    if attempts == [] then 0
    else
      var front, a := attempts[..|attempts| - 1], attempts[|attempts| - 1];
      StartCount(front, id) + (if a.request.id == id && Starts(Lines(front), a.request, a.call) then 1 else 0)
  }

  /** How often a receipt for this request was lost because its line could not be written. */
  function LostCount(attempts: seq<Attempt>, id: RequestId): nat {
    if attempts == [] then 0
    else
      var front, a := attempts[..|attempts| - 1], attempts[|attempts| - 1];
      LostCount(front, id) +
      (if a.request.id == id && Starts(Lines(front), a.request, a.call) && !a.call.written then 1 else 0)
  }

  /** The starts of a request are its lost receipts, and one more exactly when its receipt is in the journal. */
  lemma {:induction false} StartsAreJournalled(attempts: seq<Attempt>, id: RequestId)
    ensures StartCount(attempts, id) ==
              LostCount(attempts, id) + (if LastTerminal(Lines(attempts), id).Some? then 1 else 0)
  {
    if attempts != [] {
      var front, a := attempts[..|attempts| - 1], attempts[|attempts| - 1];
      StartsAreJournalled(front, id);
      AttemptJournals(Lines(front), a, id);
    }
  }

  /** Over any sequence of calls the transport starts at most one turn per request exactly when at most one
      of its receipts is lost, and none once a receipt is journalled. */
  lemma OneStartExactly(attempts: seq<Attempt>, id: RequestId)
    ensures StartCount(attempts, id) <= 1 <==>
              LostCount(attempts, id) == 0 || (LostCount(attempts, id) == 1 && LastTerminal(Lines(attempts), id).None?)
    ensures LostCount(attempts, id) == 0 ==> StartCount(attempts, id) <= 1
  {
    StartsAreJournalled(attempts, id);
  }

  lemma NextIsReplayed(front: seq<Attempt>, a: Attempt, id: RequestId)
    requires LastTerminal(Lines(front), id).Some?
    ensures StartCount(front + [a], id) == StartCount(front, id)
    ensures LastTerminal(Lines(front + [a]), id) == LastTerminal(Lines(front), id)
  {
    assert (front + [a])[..|front|] == front;
    AttemptJournals(Lines(front), a, id);
  }

  /** A request with a journalled receipt is replayed for ever. */
  lemma {:induction false} JournalledIsReplayed(attempts: seq<Attempt>, more: seq<Attempt>, id: RequestId)
    requires LastTerminal(Lines(attempts), id).Some?
    ensures StartCount(attempts + more, id) == StartCount(attempts, id)
    ensures LastTerminal(Lines(attempts + more), id) == LastTerminal(Lines(attempts), id)
  {
    if more == [] {
      assert attempts + more == attempts;
    } else {
      var front, a := more[..|more| - 1], more[|more| - 1];
      assert attempts + more == (attempts + front) + [a];
      JournalledIsReplayed(attempts, front, id);
      NextIsReplayed(attempts + front, a, id);
    }
  }

  /** What the caller got back from attempt `i`; nothing where it raised. */
  function Answer(attempts: seq<Attempt>, i: nat): Option<Receipt>
    requires i < |attempts|
  {
    CallReceipt(Lines(attempts[..i]), attempts[i].request, attempts[i].call)
  }

  /** Attempt `i` found its thread idle and, if it started a turn, wrote its line. */
  predicate Served(attempts: seq<Attempt>, i: nat, id: RequestId)
    requires i < |attempts|
  {
    attempts[i].request.id == id && Idles(attempts[i].call) && attempts[i].call.written
  }

  ghost predicate SomeServed(attempts: seq<Attempt>, id: RequestId) {
    exists i: nat :: i < |attempts| && Served(attempts, i, id)
  }

  lemma SomeServedNext(front: seq<Attempt>, a: Attempt, id: RequestId)
    ensures SomeServed(front + [a], id) <==>
              SomeServed(front, id) || (a.request.id == id && Idles(a.call) && a.call.written)
  {
    var all := front + [a];
    if SomeServed(front, id) {
      var k: nat :| k < |front| && Served(front, k, id);
      assert Served(all, k, id);
    }
    if a.request.id == id && Idles(a.call) && a.call.written {
      assert Served(all, |front|, id);
    }
    if SomeServed(all, id) {
      var k: nat :| k < |all| && Served(all, k, id);
      assert k < |front| ==> Served(front, k, id);
    }
  }

  /** A request has a journalled receipt exactly when a call of it found its thread idle and wrote its line. */
  lemma {:induction false} JournalledExactly(attempts: seq<Attempt>, id: RequestId)
    ensures LastTerminal(Lines(attempts), id).Some? <==> SomeServed(attempts, id)
  {
    if attempts != [] {
      var n := |attempts| - 1;
      var front, a := attempts[..n], attempts[n];
      assert attempts == front + [a];
      JournalledExactly(front, id);
      AttemptJournals(Lines(front), a, id);
      SomeServedNext(front, a, id);
    }
  }

  /**
   A call starts a turn exactly when its thread is idle and no earlier call of the request that found it
   idle wrote its line.
   */
  lemma StartsExactly(attempts: seq<Attempt>, req: Request, call: Call)
    ensures Starts(Lines(attempts), req, call) <==>
              Idles(call) && !SomeServed(attempts, req.id)
  {
    JournalledExactly(attempts, req.id);
  }

  /**
   What the caller sees suffices: once a call that found its thread idle was answered, no later call starts
   a turn.
   */
  lemma AnsweredNeverStartsAgain(attempts: seq<Attempt>, i: nat, req: Request, call: Call)
    requires i < |attempts| && attempts[i].request.id == req.id && Idles(attempts[i].call) && Answer(attempts, i).Some?
    ensures !Starts(Lines(attempts), req, call)
  {
    var front := attempts[..i];
    JournalledExactly(front, req.id);
    JournalledExactly(attempts, req.id);
    if SomeServed(front, req.id) {
      var k: nat :| k < |front| && Served(front, k, req.id);
      assert Served(attempts, k, req.id);
    } else {
      assert Served(attempts, i, req.id);
    }
  }

  /** A request whose earlier calls were all answered starts at most one turn. */
  lemma {:induction false} AnsweredStartsOnce(attempts: seq<Attempt>, id: RequestId)
    requires forall i :: 0 <= i < |attempts| - 1 && attempts[i].request.id == id ==> Answer(attempts, i).Some?
    ensures StartCount(attempts, id) <= 1
  {
    if attempts != [] {
      var n := |attempts| - 1;
      AnsweredLoseNothing(attempts, n, id);
      StartsAreJournalled(attempts[..n], id);
    }
  }

  lemma {:induction false} AnsweredLoseNothing(attempts: seq<Attempt>, n: nat, id: RequestId)
    requires n <= |attempts|
    requires forall i :: 0 <= i < n && attempts[i].request.id == id ==> Answer(attempts, i).Some?
    ensures LostCount(attempts[..n], id) == 0
  {
    if n > 0 {
      AnsweredLoseNothing(attempts, n - 1, id);
      assert attempts[..n][..n - 1] == attempts[..n - 1];
      assert attempts[n - 1].request.id == id ==> Answer(attempts, n - 1).Some?;
    }
  }

  /** Two equal calls on an idle thread, neither of which writes its line, start two turns. */
  lemma LostReceiptStartsTwice()
    ensures exists attempts, id ::
              && StartCount(attempts, id) == 2 && LostCount(attempts, id) == 2
              && forall i :: 0 <= i < |attempts| ==> attempts[i] == attempts[0]
  {
    var idle := ThreadState(1, Idle, [], None);
    var a := Attempt(Request(Direct(7), 1, "go"), Call(Some(idle), Some((1, Some(9))), Some(idle), false, false));
    var attempts := [a, a];
    assert attempts[..1] == [a] && [a][..0] == [];
    assert Lines([]) == [] && Starts([], a.request, a.call);
    assert Lines([a]) == [] && StartCount([a], Direct(7)) == 1 && LostCount([a], Direct(7)) == 1;
    assert StartCount(attempts, Direct(7)) == 2 && LostCount(attempts, Direct(7)) == 2;
  }
}
