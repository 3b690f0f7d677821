/**
 The directory of one Hold as a transition system.

 Every read, write, mkdir, unlink and rmdir that a Hold host, a stop request or a
 close request performs on `request.json`, `ack.json`, `result.json`, the claim
 directory and the request lock is one step. Any number of actors (host workers,
 stoppers, closers) take steps in any order; whole processes die at any point.
 The request identity is fixed, as provisioning gives each request its own root.
 */
module HoldRoot {
  import opened Basics

  type Pid = nat
  type Turn = nat

  datatype Mode = Create | Resume | Recover
  // `Working` stands for every holder phase from which a dead claim without a turn
  // identity is left alone; `Closed` for the failed, cancelled and terminal acks.
  datatype Phase = Queued | Claimed | ThreadStarting | Working | Closed
  datatype Request = Request(mode: Mode, stop: bool, turn: Option<Turn>)
  datatype Ack = Ack(phase: Phase, turn: Option<Turn>)
  // `maker` records which actor's mkdir created the directory.
  datatype Claim = NoClaim | Dir(maker: nat, owner: Option<Pid>)
  datatype Start = First(who: nat) | Next(who: nat)

  datatype PC =
    | Idle
    // scan
    | SawRequest(req: Request)
    | Scanned(req: Request, ack: Ack)
    // _claim
    | MadeDir
    | WroteOwner
    | Rechecking(ack: Ack)
    | Passed(ack: Ack)
    | Undo
    | UndoDir
    // hold_task, run by the worker whose claim succeeded
    | Ready
    | Loaded(req: Request)
    | FirstLocked(req: Request)
    | FirstChecked(req: Request)
    | FirstStarting(req: Request)
    | FirstSent(req: Request, turn: Turn)
    | Watching(req: Request, current: Option<Turn>)
    | NextLocked(req: Request)
    | NextChecked(req: Request)
    | NextSent(req: Request, turn: Turn)
    | Ending
    | Release
    | ReleaseDir
    // _requeue_dead_claim
    | SawOwner(req: Request, ack: Ack, pid: Pid)
    | FailDead(pid: Pid)
    | FailRelease
    | FailReleaseDir
    | RequeueWait(req: Request, ack: Ack, pid: Pid)
    | RequeueLocked(req: Request, ack: Ack, pid: Pid)
    | RequeueChecked(req: Request, ack: Ack, pid: Pid)
    | RequeueWroteRequest(pid: Pid)
    | RequeueWroteAck(pid: Pid)
    | RequeueReleaseDir
    // request_hold_stop, request_host_stop and close_hold
    | StopLocked
    | CloseQueued
    | CloseResult
    | CloseAck

  datatype State = State(
    req: Request,
    ack: Ack,
    result: bool,
    closing: bool,           // `close.json` names this request
    claim: Claim,
    lock: Option<nat>,
    alive: set<Pid>,
    pids: seq<Pid>,          // the process of each actor
    pcs: seq<PC>,            // where each actor stands
    starts: seq<Start>)

  // _claim: scan, mkdir, owner write, recheck, ack write, and undo when the recheck fails
  datatype ClaimMove =
    | ScanRequest | ScanAck | MakeDir | WriteOwner | RecheckRead | RecheckPass | RecheckFail
    | WriteClaimed | UndoOwner | UndoRmdir

  // hold_task and the release that run_once performs after it
  datatype HoldMove =
    | Load | LockFirst | CheckFirst | StartFirst | SendFirst | Hold | Attach | Report(phase: Phase, withTurn: bool)
    | LockNext | CheckNext | SendNext | BindNext | End
    | WriteResult | WriteFinalAck | BeginRelease | LeaveClaim | ReleaseOwner | ReleaseRmdir

  // _requeue_dead_claim: the unlocked branch (fail) and the locked branch (recover)
  datatype RequeueMove =
    | SeeOwner | FindDead | WriteFailed | FailOwner | FailRmdir
    | LockRequeue | RecheckOwner | WriteRecovered | WriteQueued | RequeueOwner | RequeueRmdir

  // request_hold_stop, request_host_stop, close_hold
  datatype StopMove =
    | RecordClose | LockStop | WriteStop | FindQueued | CloseWriteStop | CloseWriteResult | CloseWriteAck

  // process death, and the claim release of reconcile_hold
  datatype WorldMove = Die(pid: Pid) | ReconcileOwner | ReconcileRmdir

  datatype Action =
    | Claiming(w: nat, c: ClaimMove)
    | Holding(w: nat, h: HoldMove)
    | Requeueing(w: nat, r: RequeueMove)
    | Stopping(w: nat, t: StopMove)
    | Abort(w: nat)
    | World(e: WorldMove)

  predicate Live(s: State, w: nat) {
    w < |s.pcs| && w < |s.pids| && s.pids[w] in s.alive
  }

  function PCOf(s: State, w: nat): PC
    requires w < |s.pcs|
  {
    s.pcs[w]
  }

  function Goto(s: State, w: nat, pc: PC): State
    requires w < |s.pcs|
  {
    s.(pcs := s.pcs[w := pc])
  }

  /** The lock is free, or its owner died: the dead-owner reclaim lets a contender in. */
  predicate LockFree(s: State) {
    s.lock.None? || !Live(s, s.lock.value)
  }

  /** Take the request lock. */
  function Enter(s: State, w: nat, pc: PC): State
    requires w < |s.pcs|
  {
    Goto(s, w, pc).(lock := Some(w))
  }

  /** Leave the current block: a held lock is dropped on the way out. */
  function Leave(s: State, w: nat, pc: PC): State
    requires w < |s.pcs|
  {
    Goto(s, w, pc).(lock := if s.lock == Some(w) then None else s.lock)
  }

  /** `owner.unlink(missing_ok=True)`. */
  function UnlinkOwner(c: Claim): Claim {
    if c.Dir? then c.(owner := None) else c
  }

  /** `claim_dir.rmdir()` fails on a directory that still holds `owner.json`. */
  predicate Removable(c: Claim) {
    c.NoClaim? || c.owner.None?
  }

  /** The turn a holder may name in its reports; the App Server invents none. */
  function KnownTurn(pc: PC): Option<Turn> {
    match pc
    case Loaded(r) => if r.mode.Recover? then r.turn else None
    case FirstLocked(r) => if r.mode.Recover? then r.turn else None
    case FirstSent(_, t) => Some(t)
    case Watching(_, t) => t
    case NextSent(_, t) => Some(t)
    case _ => None
  }

  predicate Reports(pc: PC) {
    pc.Loaded? || pc.FirstLocked? || pc.FirstChecked? || pc.FirstStarting? || pc.FirstSent? || pc.Watching? ||
    pc.NextLocked? || pc.NextChecked? || pc.NextSent?
  }

  predicate InHold(pc: PC) {
    pc.Ready? || Reports(pc)
  }

  predicate InClaim(pc: PC) {
    pc.MadeDir? || pc.WroteOwner? || pc.Rechecking? || pc.Passed?
  }

  /** Identity that a dead claim is recovered with: the ack's turn, else the request's. */
  function Identity(req: Request, ack: Ack): Option<Turn> {
    if ack.turn.Some? then ack.turn else req.turn
  }

  /** Guard of the branch that fails a dead claim which never reached a turn. */
  predicate NeverStarted(req: Request, ack: Ack) {
    && Identity(req, ack).None?
    && (ack.phase.Claimed? || ack.phase.Queued? || ack.phase.ThreadStarting?)
    && req.mode.Create?
  }

  predicate CanClaim(s: State, pc: PC, c: ClaimMove) {
    match c
    case ScanRequest => pc.Idle? && !s.result
    case ScanAck => pc.SawRequest? && !s.result
    case MakeDir => pc.Scanned? && pc.ack.phase.Queued? && s.claim.NoClaim?
    case WriteOwner => pc.MadeDir?
    case RecheckRead => pc.WroteOwner?
    case RecheckPass => pc.Rechecking? && pc.ack.phase.Queued? && !s.result
    case RecheckFail => pc.Rechecking? && (!pc.ack.phase.Queued? || s.result)
    case WriteClaimed => pc.Passed?
    case UndoOwner => pc.Undo?
    case UndoRmdir => pc.UndoDir? && Removable(s.claim)
  }

  function DoClaim(s: State, w: nat, c: ClaimMove): State
    requires w < |s.pcs| && w < |s.pids| && CanClaim(s, PCOf(s, w), c)
  {
    var pc := PCOf(s, w);
    match c
    case ScanRequest => Goto(s, w, SawRequest(s.req))
    case ScanAck => Goto(s, w, Scanned(pc.req, s.ack))
    case MakeDir => Goto(s, w, MadeDir).(claim := Dir(w, None))
    // the atomic JSON writer creates a missing parent directory
    case WriteOwner =>
      Goto(s, w, WroteOwner).(
        claim := Dir(if s.claim.Dir? then s.claim.maker else w, Some(s.pids[w])))
    case RecheckRead => Goto(s, w, Rechecking(s.ack))
    case RecheckPass => Goto(s, w, Passed(pc.ack))
    case RecheckFail => Goto(s, w, Undo)
    case WriteClaimed => Goto(s, w, Ready).(ack := pc.ack.(phase := Claimed))
    case UndoOwner => Goto(s, w, UndoDir).(claim := UnlinkOwner(s.claim))
    case UndoRmdir => Goto(s, w, Idle).(claim := NoClaim)
  }

  predicate CanHold(s: State, pc: PC, h: HoldMove) {
    match h
    case Load => pc.Ready?
    case LockFirst => pc.Loaded? && LockFree(s)
    case CheckFirst => pc.FirstLocked? && !pc.req.mode.Recover? && !s.req.stop && !s.closing
    case StartFirst => pc.FirstChecked?
    case SendFirst => pc.FirstStarting?
    case Hold => pc.FirstSent?
    case Attach => pc.FirstLocked? && pc.req.mode.Recover?
    case Report(phase, _) =>
      Reports(pc) && (phase.Working? || (phase.ThreadStarting? && pc.FirstChecked? && pc.req.mode.Create?))
    case LockNext => pc.Watching? && LockFree(s)
    case CheckNext => pc.NextLocked? && !s.req.stop && !s.closing
    case SendNext => pc.NextChecked?
    case BindNext => pc.NextSent?
    case End => InHold(pc)
    case WriteResult => pc.Ending?
    case WriteFinalAck => pc.Ending?
    case BeginRelease => pc.Ending?
    case LeaveClaim => pc.Ending?
    case ReleaseOwner => pc.Release?
    case ReleaseRmdir => pc.ReleaseDir? && Removable(s.claim)
  }

  function DoHold(s: State, w: nat, h: HoldMove): State
    requires w < |s.pcs| && w < |s.pids| && CanHold(s, PCOf(s, w), h)
  {
    var pc := PCOf(s, w);
    match h
    case Load => Goto(s, w, Loaded(s.req))
    case LockFirst => Enter(s, w, FirstLocked(pc.req))
    case CheckFirst => Goto(s, w, FirstChecked(pc.req))
    // the launcher reports `turn_starting` before it sends the start request
    case StartFirst => Goto(s, w, FirstStarting(pc.req)).(ack := Ack(Working, None))
    case SendFirst => Goto(s, w, FirstSent(pc.req, |s.starts|)).(starts := s.starts + [First(w)])
    case Hold => Leave(s, w, Watching(pc.req, Some(pc.turn)))
    case Attach => Leave(s, w, Watching(pc.req, pc.req.turn))
    case Report(phase, withTurn) => s.(ack := Ack(phase, if withTurn then KnownTurn(pc) else None))
    case LockNext => Enter(s, w, NextLocked(pc.req))
    case CheckNext => Goto(s, w, NextChecked(pc.req))
    case SendNext => Goto(s, w, NextSent(pc.req, |s.starts|)).(starts := s.starts + [Next(w)])
    case BindNext =>
      Leave(s, w, Watching(pc.req, Some(pc.turn))).(
        req := if pc.req.mode.Recover? then s.req.(turn := Some(pc.turn)) else s.req)
    case End => Leave(s, w, Ending)
    case WriteResult => s.(result := true)
    case WriteFinalAck => s.(ack := Ack(Closed, None))
    case BeginRelease => Goto(s, w, Release)
    case LeaveClaim => Goto(s, w, Idle)
    case ReleaseOwner => Goto(s, w, ReleaseDir).(claim := UnlinkOwner(s.claim))
    case ReleaseRmdir => Goto(s, w, Idle).(claim := NoClaim)
  }

  predicate CanRequeue(s: State, pc: PC, r: RequeueMove) {
    match r
    case SeeOwner => pc.Scanned? && s.claim.Dir? && s.claim.owner.Some?
    case FindDead => pc.SawOwner? && pc.pid !in s.alive
    case WriteFailed => pc.FailDead?
    case FailOwner => pc.FailRelease?
    case FailRmdir => pc.FailReleaseDir? && Removable(s.claim)
    case LockRequeue => pc.RequeueWait? && LockFree(s)
    case RecheckOwner => pc.RequeueLocked? && s.claim.Dir? && s.claim.owner == Some(pc.pid)
    case WriteRecovered => pc.RequeueChecked?
    case WriteQueued => pc.RequeueWroteRequest?
    case RequeueOwner => pc.RequeueWroteAck?
    case RequeueRmdir => pc.RequeueReleaseDir? && Removable(s.claim)
  }

  function DoRequeue(s: State, w: nat, r: RequeueMove): State
    requires w < |s.pcs| && w < |s.pids| && CanRequeue(s, PCOf(s, w), r)
  {
    var pc := PCOf(s, w);
    match r
    case SeeOwner => Goto(s, w, SawOwner(pc.req, pc.ack, s.claim.owner.value))
    case FindDead =>
      Goto(s, w,
        if Identity(pc.req, pc.ack).Some? then RequeueWait(pc.req, pc.ack, pc.pid)
        else if NeverStarted(pc.req, pc.ack) then FailDead(pc.pid)
        else Idle)
    case WriteFailed => Goto(s, w, FailRelease).(ack := Ack(Closed, None))
    case FailOwner => Goto(s, w, FailReleaseDir).(claim := UnlinkOwner(s.claim))
    case FailRmdir => Goto(s, w, Idle).(claim := NoClaim)
    case LockRequeue => Enter(s, w, RequeueLocked(pc.req, pc.ack, pc.pid))
    case RecheckOwner => Goto(s, w, RequeueChecked(pc.req, pc.ack, pc.pid))
    case WriteRecovered =>
      Goto(s, w, RequeueWroteRequest(pc.pid)).(
        req := Request(Recover, pc.req.stop || s.req.stop, Identity(pc.req, pc.ack)))
    case WriteQueued => Goto(s, w, RequeueWroteAck(pc.pid)).(ack := Ack(Queued, None))
    case RequeueOwner => Goto(s, w, RequeueReleaseDir).(claim := UnlinkOwner(s.claim))
    case RequeueRmdir => Leave(s, w, Idle).(claim := NoClaim)
  }

  predicate CanStop(s: State, pc: PC, t: StopMove) {
    match t
    case RecordClose => pc.Idle?
    case LockStop => pc.Idle? && LockFree(s)
    case WriteStop => pc.StopLocked?
    case FindQueued => pc.StopLocked? && !s.result && s.ack.phase.Queued? && s.claim.NoClaim?
    case CloseWriteStop => pc.CloseQueued?
    case CloseWriteResult => pc.CloseResult?
    case CloseWriteAck => pc.CloseAck?
  }

  function DoStop(s: State, w: nat, t: StopMove): State
    requires w < |s.pcs| && w < |s.pids| && CanStop(s, PCOf(s, w), t)
  {
    match t
    // under a lock of its own, before the request lock is taken
    case RecordClose => s.(closing := true)
    case LockStop => Enter(s, w, StopLocked)
    case WriteStop => Leave(s, w, Idle).(req := s.req.(stop := true))
    case FindQueued => Goto(s, w, CloseQueued)
    case CloseWriteStop => Goto(s, w, CloseResult).(req := s.req.(stop := true))
    case CloseWriteResult => Goto(s, w, CloseAck).(result := true)
    case CloseWriteAck => Leave(s, w, Idle).(ack := Ack(Closed, None))
  }

  predicate Can(s: State, a: Action) {
    match a
    case Claiming(w, c) => Live(s, w) && CanClaim(s, PCOf(s, w), c)
    case Holding(w, h) => Live(s, w) && CanHold(s, PCOf(s, w), h)
    case Requeueing(w, r) => Live(s, w) && CanRequeue(s, PCOf(s, w), r)
    case Stopping(w, t) => Live(s, w) && CanStop(s, PCOf(s, w), t)
    // any other read, write or lock wait may raise
    case Abort(w) => Live(s, w) && !InHold(PCOf(s, w)) && !PCOf(s, w).Ending?
    case World(Die(p)) => p in s.alive
    // reconcile_hold releases a claim only when a result is already written
    case World(ReconcileOwner) => s.result
    case World(ReconcileRmdir) => s.result && Removable(s.claim)
  }

  function Do(s: State, a: Action): State
    requires Can(s, a)
  {
    match a
    case Claiming(w, c) => DoClaim(s, w, c)
    case Holding(w, h) => DoHold(s, w, h)
    case Requeueing(w, r) => DoRequeue(s, w, r)
    case Stopping(w, t) => DoStop(s, w, t)
    case Abort(w) => Leave(s, w, if InClaim(PCOf(s, w)) then Undo else Idle)
    case World(Die(p)) => s.(alive := s.alive - {p})
    case World(ReconcileOwner) => s.(claim := UnlinkOwner(s.claim))
    case World(ReconcileRmdir) => s.(claim := NoClaim)
  }

  /** The actor that takes a step, if any. */
  function ActorOf(a: Action): Option<nat> {
    match a
    case Claiming(w, _) => Some(w)
    case Holding(w, _) => Some(w)
    case Requeueing(w, _) => Some(w)
    case Stopping(w, _) => Some(w)
    case Abort(w) => Some(w)
    case World(_) => None
  }

  /** One actor moves at most, and nobody comes back to life. */
  ghost predicate Framed(s: State, t: State, actor: Option<nat>) {
    && |t.pcs| == |s.pcs| && t.pids == s.pids
    && forall v: nat {:trigger Live(t, v)} :: Live(t, v) ==>
         && Live(s, v)
         && (actor != Some(v) ==> PCOf(t, v) == PCOf(s, v))
  }

  lemma ClaimFrame(s: State, w: nat, c: ClaimMove)
    requires Can(s, Claiming(w, c))
    ensures Framed(s, DoClaim(s, w, c), Some(w))
  {
  }

  lemma HoldFrame(s: State, w: nat, h: HoldMove)
    requires Can(s, Holding(w, h))
    ensures Framed(s, DoHold(s, w, h), Some(w))
  {
  }

  lemma RequeueFrame(s: State, w: nat, r: RequeueMove)
    requires Can(s, Requeueing(w, r))
    ensures Framed(s, DoRequeue(s, w, r), Some(w))
  {
  }

  lemma StopFrame(s: State, w: nat, t: StopMove)
    requires Can(s, Stopping(w, t))
    ensures Framed(s, DoStop(s, w, t), Some(w))
  {
  }

  lemma Frame(s: State, a: Action)
    requires Can(s, a)
    ensures Framed(s, Do(s, a), ActorOf(a))
  {
    match a
    case Claiming(w, c) => ClaimFrame(s, w, c);
    case Holding(w, h) => HoldFrame(s, w, h);
    case Requeueing(w, r) => RequeueFrame(s, w, r);
    case Stopping(w, t) => StopFrame(s, w, t);
    case Abort(w) =>
    case World(e) =>
  }

  predicate Init(s: State) {
    && !s.req.mode.Recover? && !s.req.stop && s.req.turn.None?
    && s.ack == Ack(Queued, None) && !s.result && !s.closing && s.claim.NoClaim? && s.lock.None?
    && s.starts == []
    && |s.pcs| == |s.pids| && forall w :: 0 <= w < |s.pcs| ==> s.pcs[w].Idle?
  }

  ghost predicate StepAt(ss: seq<State>, i: nat)
    requires i + 1 < |ss|
  {
    exists a :: Can(ss[i], a) && ss[i + 1] == Do(ss[i], a)
  }

  ghost predicate Run(ss: seq<State>) {
    && |ss| > 0
    && Init(ss[0])
    && forall i: nat :: i + 1 < |ss| ==> StepAt(ss, i)
  }

  /** The action behind a step of a run. */
  lemma ActionAt(ss: seq<State>, i: nat) returns (a: Action)
    requires Run(ss) && i + 1 < |ss|
    ensures Can(ss[i], a) && ss[i + 1] == Do(ss[i], a)
  {
    assert StepAt(ss, i);
    a :| Can(ss[i], a) && ss[i + 1] == Do(ss[i], a);
  }

  ghost predicate Reachable(s: State) {
    exists ss :: Run(ss) && s == ss[|ss| - 1]
  }

  lemma Extend(ss: seq<State>, a: Action, t: State)
    requires Run(ss) && Can(ss[|ss| - 1], a) && t == Do(ss[|ss| - 1], a)
    ensures Run(ss + [t])
  {
    var tt := ss + [t];
    forall i: nat | i + 1 < |tt|
      ensures StepAt(tt, i)
    {
      if i + 1 < |ss| {
        var b := ActionAt(ss, i);
        assert Can(tt[i], b) && tt[i + 1] == Do(tt[i], b);
      } else {
        assert Can(tt[i], a) && tt[i + 1] == Do(tt[i], a);
      }
    }
  }

  /** A run comes to `s` and goes on to `t`. */
  ghost predicate Leads(s: State, t: State) {
    exists ss: seq<State>, i: nat :: Run(ss) && i < |ss| && ss[i] == s && ss[|ss| - 1] == t
  }

  lemma Arrive(s: State)
    requires Reachable(s)
    ensures Leads(s, s)
  {
    var ss :| Run(ss) && s == ss[|ss| - 1];
    var i: nat := |ss| - 1;
    assert ss[i] == s && ss[|ss| - 1] == s;
  }

  lemma Follow(o: State, s: State, a: Action, t: State)
    requires Leads(o, s) && Can(s, a) && t == Do(s, a)
    ensures Leads(o, t)
  {
    var ss: seq<State>, i: nat :| Run(ss) && i < |ss| && ss[i] == o && ss[|ss| - 1] == s;
    Extend(ss, a, t);
    assert (ss + [t])[i] == o && (ss + [t])[|ss + [t]| - 1] == t;
  }

  lemma LeadsToReachable(s: State, t: State)
    requires Leads(s, t)
    ensures Reachable(t)
  {
  }

  lemma Take(s: State, a: Action, t: State)
    requires Reachable(s) && Can(s, a) && t == Do(s, a)
    ensures Reachable(t)
  {
    Arrive(s);
    Follow(s, s, a, t);
    LeadsToReachable(s, t);
  }
}
