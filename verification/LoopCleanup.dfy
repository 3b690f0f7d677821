/**
 The common end of every loop: latch the cleanup, cancel the reconcile heartbeat, drain
 all owned Holds, and mark the cleanup completed only on released, terminal evidence.
 */
module LoopCleanup {
  import opened Basics
  import opened Statuses
  import opened CloseReports
  import opened LoopState
  import opened LoopStore

  /** What the runtime answers for one child; a close call that raises counts as `CloseFailed`. */
  datatype Reply = Reply(close: CloseReceipt, stopRequested: bool, monitor: Receipt)

  predicate CloseBroke(r: CloseReceipt) {
    r.CloseFailed? || r.Unsupported?
  }

  /** The state that `_finish` persists before any effect. */
  function Latch(s: Loop, target: Target): Loop {
    var cleanup := if s.cleanup.Some? then s.cleanup.value else Cleanup(target, false, false);
    s.(cleanup := Some(cleanup.(completed := cleanup.completed && Confirmed(s))),
       status := if target.ToStopped? then Stopping else Finalizing)
  }

  function DrainedChild(c: Child, closing: bool, reply: Reply): Child {
    if c.hold.None? then c
    else
      var asked :=
        if closing then c.(closeReceipt := Some(reply.close))
        else c.(stopRequested := c.stopRequested || reply.stopRequested);
      if closing && CloseBroke(reply.close) then asked.(released := false)
      else asked.(receipt := Some(reply.monitor), released := ReceiptReleased(Some(reply.monitor)))
  }

  predicate DrainReleased(c: Child, closing: bool, reply: Reply) {
    if c.hold.None? then !ReceiptActive(c.receipt)
    else !(closing && CloseBroke(reply.close)) && ReceiptReleased(Some(reply.monitor))
  }

  predicate DrainClosed(c: Child, closing: bool, reply: Reply) {
    if c.hold.None? then !ReceiptActive(c.receipt)
    else closing ==> reply.close.Closed? || reply.close.ClosedUnconfirmed?
  }

  predicate AllReleased(s: Loop, replies: nat -> Reply) {
    forall i :: 0 <= i < |s.children| ==> DrainReleased(s.children[i], s.close.Some?, replies(i))
  }

  predicate AllManaged(s: Loop, replies: nat -> Reply) {
    forall i :: 0 <= i < |s.children| ==> DrainClosed(s.children[i], s.close.Some?, replies(i))
  }

  function DrainedChildren(s: Loop, replies: nat -> Reply): (r: seq<Child>)
    ensures |r| == |s.children|
    ensures forall i :: 0 <= i < |r| ==> r[i] == DrainedChild(s.children[i], s.close.Some?, replies(i))
  {
    seq(|s.children|, i requires 0 <= i < |s.children| => DrainedChild(s.children[i], s.close.Some?, replies(i)))
  }

  predicate FailedClose(c: Child) {
    c.closeReceipt.Some? && (CloseBroke(c.closeReceipt.value) || c.closeReceipt.value.InvalidRequest?)
  }

  predicate AnyFailedClose(cs: seq<Child>) {
    exists i :: 0 <= i < |cs| && FailedClose(cs[i])
  }

  function ClosedRecord(c: Close, failed: bool, complete: bool, local: bool): Close {
    c.(status := if failed then Broken else if complete then Complete else if local then Unresolved else Pending,
       schedulingClosed := true, confirmed := complete, managementClosed := local, unresolved := local && !complete)
  }

  /** The drain that follows the latch, on a state whose cleanup is still pending. */
  function Drained(s: Loop, cancelled: bool, replies: nat -> Reply): Loop
    requires s.cleanup.Some? && !s.cleanup.value.completed
  {
    var stopped := s.cleanup.value.heartbeatCancelled || !s.hasHeartbeat || cancelled;
    var complete := AllReleased(s, replies) && stopped;
    var local := AllManaged(s, replies) && stopped;
    var children := DrainedChildren(s, replies);
    s.(
      children := children,
      cleanup := Some(s.cleanup.value.(heartbeatCancelled := stopped, completed := complete)),
      close := if s.close.None? then None
               else Some(ClosedRecord(s.close.value, AnyFailedClose(children), complete, local)),
      status := if s.close.Some? && local && !complete then ClosedUnconfirmedLoop
                else if complete then Ends(s.cleanup.value.target)
                else s.status)
  }

  /** The latched state was not adopted: the store came back with a close of its own and no cleanup. */
  predicate Unlatched(latest: Option<Loop>, s: Loop) {
    && latest.Some? && latest.value.cleanup.None? && latest.value.close.Some?
    && (s.close.None? || s.close.value.id != latest.value.close.value.id)
  }

  /** The loop of `_finish` over the owned Holds. */
  method DrainChildren(s: Loop, replies: nat -> Reply) returns (children: seq<Child>, released: bool, managed: bool)
    ensures children == DrainedChildren(s, replies)
    ensures released <==> AllReleased(s, replies)
    ensures managed <==> AllManaged(s, replies)
  {
    children, released, managed := s.children, true, true;
    var closing := s.close.Some?;
    for i := 0 to |children|
      invariant |children| == |s.children|
      invariant forall j :: 0 <= j < i ==> children[j] == DrainedChild(s.children[j], closing, replies(j))
      invariant forall j :: i <= j < |children| ==> children[j] == s.children[j]
      invariant released <==> forall j :: 0 <= j < i ==> DrainReleased(s.children[j], closing, replies(j))
      invariant managed <==> forall j :: 0 <= j < i ==> DrainClosed(s.children[j], closing, replies(j))
    {
      var child, reply := children[i], replies(i);
      if child.hold.None? {
        released := released && !ReceiptActive(child.receipt);
        managed := managed && !ReceiptActive(child.receipt);
        continue;
      }
      if closing {
        child := child.(closeReceipt := Some(reply.close));
        managed := managed && (reply.close.Closed? || reply.close.ClosedUnconfirmed?);
        if CloseBroke(reply.close) {
          released := false;
          children := children[i := child.(released := false)];
          continue;
        }
      } else if !child.stopRequested {
        child := child.(stopRequested := reply.stopRequested);
      }
      child := child.(receipt := Some(reply.monitor), released := ReceiptReleased(Some(reply.monitor)));
      released := released && child.released;
      children := children[i := child];
    }
  }

  /** Everything that `_finish` does after its latch: cancel, drain, and judge the outcome. */
  method Drain(copy: Copy, cancelled: bool, replies: nat -> Reply)
    requires copy.s.cleanup.Some? && !copy.s.cleanup.value.completed
    modifies copy
    ensures copy.s == Drained(old(copy.s), cancelled, replies)
  {
    var cleanup := copy.s.cleanup.value;
    if !cleanup.heartbeatCancelled {
      cleanup := cleanup.(heartbeatCancelled := !copy.s.hasHeartbeat || cancelled);
    }
    var closing := copy.s.close.Some?;
    var children, released, managed := DrainChildren(copy.s, replies);
    var status := copy.s.status;
    if released && cleanup.heartbeatCancelled {
      cleanup := cleanup.(completed := true);
      status := Ends(cleanup.target);
    }
    var close := copy.s.close;
    if closing {
      var complete := released && cleanup.heartbeatCancelled;
      var local := managed && cleanup.heartbeatCancelled;
      close := Some(ClosedRecord(close.value, AnyFailedClose(children), complete, local));
      if local && !complete {
        status := ClosedUnconfirmedLoop;
      }
    }
    copy.s := copy.s.(children := children, cleanup := Some(cleanup), status := status, close := close);
  }

  /** `_finish`; `latched` is false where the look-up of the cleanup raises after the first save. */
  method Finish(store: Store, loop: Id, copy: Copy, target: Target, cancelled: bool, replies: nat -> Reply)
    returns (latched: bool)
    modifies store, copy
    ensures var latest := old(store.OnDisk(loop));
      var stored := Saved(latest, Latch(old(copy.s), target));
      && store.files == old(store.files)[loop := stored]
      && latched == !Unlatched(latest, old(copy.s))
      && latched == stored.cleanup.Some?
      && copy.s == if latched && !stored.cleanup.value.completed then Drained(stored, cancelled, replies) else stored
  {
    var s := copy.s;
    var cleanup := if s.cleanup.Some? then s.cleanup.value else Cleanup(target, false, false);
    if cleanup.completed && !Confirmed(s) {
      cleanup := cleanup.(completed := false);
    }
    copy.s := s.(cleanup := Some(cleanup), status := if target.ToStopped? then Stopping else Finalizing);
    assert copy.s == Latch(s, target);
    LatchIsStored(store.OnDisk(loop), s, target);
    store.Save(loop, copy);
    if copy.s.cleanup.None? {
      return false;
    }
    latched := true;
    if !copy.s.cleanup.value.completed {
      Drain(copy, cancelled, replies);
    }
  }

  /** The latch is lost exactly when a close was recorded meanwhile on a record without cleanup. */
  lemma LatchIsStored(latest: Option<Loop>, s: Loop, target: Target)
    ensures Saved(latest, Latch(s, target)).cleanup.Some? <==> !Unlatched(latest, s)
  {
  }

  /**
   Truthful cleanup: the drain marks the cleanup completed exactly when the heartbeat is cancelled, the
   independent evidence predicate holds of the resulting record, and no owned child's close call broke.
   */
  lemma DrainIsTruthful(s: Loop, cancelled: bool, replies: nat -> Reply)
    requires s.cleanup.Some? && !s.cleanup.value.completed
    ensures var t := Drained(s, cancelled, replies);
      CleanupCompleted(t) <==>
        && t.cleanup.value.heartbeatCancelled && Confirmed(t)
        && (s.close.Some? ==> forall i :: 0 <= i < |t.children| && t.children[i].hold.Some? ==>
              t.children[i].closeReceipt.Some? && !CloseBroke(t.children[i].closeReceipt.value))
  {
  }

  /** A loop called closed but unconfirmed has every owned child closed for management, and is not completed. */
  lemma UnconfirmedMeans(s: Loop, cancelled: bool, replies: nat -> Reply)
    requires s.cleanup.Some? && !s.cleanup.value.completed && !s.status.ClosedUnconfirmedLoop?
    ensures var t := Drained(s, cancelled, replies);
      t.status.ClosedUnconfirmedLoop? ==>
        && !CleanupCompleted(t) && t.cleanup.value.heartbeatCancelled
        && t.close.Some? && t.close.value.managementClosed && t.close.value.unresolved
        && forall i :: 0 <= i < |t.children| && t.children[i].hold.Some? ==>
             t.children[i].closeReceipt == Some(Closed) || t.children[i].closeReceipt == Some(ClosedUnconfirmed)
  {
  }

  /**
   Once confirmed, a drained cleanup is final: whatever is written after the caller's own save, the stored
   cleanup stays completed until somebody stores evidence that no longer confirms it.
   */
  lemma DrainedSaveCompletes(latest: Option<Loop>, s: Loop, cancelled: bool, replies: nat -> Reply, op: Op)
    requires s.cleanup.Some? && !s.cleanup.value.completed
    requires CleanupCompleted(Drained(s, cancelled, replies))
    requires Saved(latest, Drained(s, cancelled, replies)) == Drained(s, cancelled, replies)
    ensures CleanupCompleted(Apply(Some(Saved(latest, Drained(s, cancelled, replies))), op).value)
  {
    DrainIsTruthful(s, cancelled, replies);
    ConfirmedCleanupStays(Drained(s, cancelled, replies), op);
  }
}
