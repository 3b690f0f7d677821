/**
 The lock-file protocol of `ProcessLock` in `owner_alive` mode.

 Contenders are lock objects; several may live in one process. Each file operation
 of acquisition, release and dead-owner reclaim is a step, processes die between any
 two of them, and pids are never reused. On Windows the reclaimer deletes through an
 exclusive handle; on POSIX it locks and compares the inode before it tests the owner.
 */
module ProcessLock {
  import opened Basics

  type Pid = nat

  datatype Platform = Windows | Posix

  // `maker` is the contender whose exclusive create made the file; `content` is the
  // pid that it wrote, absent while the file is still empty.
  datatype File = File(maker: nat, content: Option<Pid>)

  datatype PC =
    | Outside
    | Created(f: nat)
    | Inside(f: nat)
    | Opened(f: nat)
    | Compared(f: nat)
    | Read(f: nat, content: Option<Pid>)
    | Condemned(f: nat)
    | Deleting(f: nat)

  datatype Contender = Contender(pid: Pid, pc: PC)

  datatype State = State(
    platform: Platform,
    path: Option<nat>,       // the file the lock path names
    files: seq<File>,
    alive: set<Pid>,
    contenders: seq<Contender>)

  datatype Action =
    | Die(pid: Pid)
    | Create(w: nat)
    | Publish(w: nat)
    | Exit(w: nat)
    | GiveUp(w: nat)
    | Open(w: nat)
    | Compare(w: nat)
    | ReadOwner(w: nat)
    | Judge(w: nat)
    | Delete(w: nat)
    | Close(w: nat)

  predicate Live(s: State, w: nat) {
    w < |s.contenders| && s.contenders[w].pid in s.alive
  }

  function PCOf(s: State, w: nat): PC
    requires w < |s.contenders|
  {
    s.contenders[w].pc
  }

  predicate Reclaiming(pc: PC) {
    pc.Opened? || pc.Compared? || pc.Read? || pc.Condemned? || pc.Deleting?
  }

  /** A contender with an open handle on file `f`: the writer that created it, or a reclaimer. */
  predicate HasHandle(s: State, w: nat, f: nat) {
    Live(s, w) && (PCOf(s, w) == Created(f) || (Reclaiming(PCOf(s, w)) && PCOf(s, w).f == f))
  }

  ghost predicate Unopened(s: State, f: nat) {
    forall w: nat :: !HasHandle(s, w, f)
  }

  function Goto(s: State, w: nat, pc: PC): State
    requires w < |s.contenders|
  {
    s.(contenders := s.contenders[w := s.contenders[w].(pc := pc)])
  }

  ghost predicate Can(s: State, a: Action) {
    match a
    case Die(p) => p in s.alive
    case Create(w) => Live(s, w) && PCOf(s, w).Outside? && s.path.None?
    case Publish(w) => Live(s, w) && PCOf(s, w).Created? && PCOf(s, w).f < |s.files|
    // unlink; Windows refuses while anyone has the file open
    case Exit(w) =>
      Live(s, w) && PCOf(s, w).Inside? && (s.platform.Windows? && s.path.Some? ==> Unopened(s, s.path.value))
    // the release deadline passed while an inspector kept the file open
    case GiveUp(w) => Live(s, w) && PCOf(s, w).Inside?
    // CreateFileW with no sharing, or open and flock
    case Open(w) =>
      && Live(s, w) && PCOf(s, w).Outside? && s.path.Some?
      && (s.platform.Windows? ==> Unopened(s, s.path.value))
      && (s.platform.Posix? ==>
            forall v: nat :: Live(s, v) && Reclaiming(PCOf(s, v)) ==> PCOf(s, v).f != s.path.value)
    case Compare(w) =>
      Live(s, w) && s.platform.Posix? && PCOf(s, w).Opened? && s.path == Some(PCOf(s, w).f)
    case ReadOwner(w) =>
      && Live(s, w) && (if s.platform.Windows? then PCOf(s, w).Opened? else PCOf(s, w).Compared?)
      && PCOf(s, w).f < |s.files|
    case Judge(w) =>
      Live(s, w) && PCOf(s, w).Read? && PCOf(s, w).content.Some? && PCOf(s, w).content.value !in s.alive
    case Delete(w) => Live(s, w) && PCOf(s, w).Condemned?
    case Close(w) => Live(s, w) && Reclaiming(PCOf(s, w))
  }

  /** A closed handle with delete disposition takes its file off the path. */
  function Drop(path: Option<nat>, pc: PC): Option<nat> {
    if pc.Deleting? && path == Some(pc.f) then None else path
  }

  ghost function Do(s: State, a: Action): State
    requires Can(s, a)
  {
    match a
    case Die(p) =>
      s.(alive := s.alive - {p},
         path := if exists w: nat ::
                     Live(s, w) && s.contenders[w].pid == p && PCOf(s, w).Deleting? && s.path == Some(PCOf(s, w).f)
                 then None else s.path)
    case Create(w) =>
      Goto(s, w, Created(|s.files|)).(files := s.files + [File(w, None)], path := Some(|s.files|))
    case Publish(w) =>
      var f := PCOf(s, w).f;
      Goto(s, w, Inside(f)).(files := s.files[f := s.files[f].(content := Some(s.contenders[w].pid))])
    case Exit(w) => Goto(s, w, Outside).(path := None)
    case GiveUp(w) => Goto(s, w, Outside)
    case Open(w) => Goto(s, w, Opened(s.path.value))
    case Compare(w) => Goto(s, w, Compared(PCOf(s, w).f))
    case ReadOwner(w) => Goto(s, w, Read(PCOf(s, w).f, s.files[PCOf(s, w).f].content))
    case Judge(w) => Goto(s, w, Condemned(PCOf(s, w).f))
    case Delete(w) =>
      if s.platform.Windows? then Goto(s, w, Deleting(PCOf(s, w).f))
      else Goto(s, w, Outside).(path := None)
    case Close(w) => Goto(s, w, Outside).(path := Drop(s.path, PCOf(s, w)))
  }

  predicate Init(s: State) {
    s.path.None? && s.files == [] && forall w :: 0 <= w < |s.contenders| ==> s.contenders[w].pc.Outside?
  }

  ghost predicate StepAt(ss: seq<State>, i: nat)
    requires i + 1 < |ss|
  {
    exists a :: Can(ss[i], a) && ss[i + 1] == Do(ss[i], a)
  }

  ghost predicate Run(ss: seq<State>) {
    && |ss| > 0
    && Init(ss[0])
    && forall i: nat :: i + 1 < |ss| ==> StepAt(ss, i)
  }

  /** The action behind a step of a run. */
  lemma ActionAt(ss: seq<State>, i: nat) returns (a: Action)
    requires Run(ss) && i + 1 < |ss|
    ensures Can(ss[i], a) && ss[i + 1] == Do(ss[i], a)
  {
    assert StepAt(ss, i);
    a :| Can(ss[i], a) && ss[i + 1] == Do(ss[i], a);
  }

  // The Windows branch

  predicate Written(s: State, f: nat) {
    && f < |s.files| && s.files[f].maker < |s.contenders|
    && s.files[f].content.Some? && s.files[f].content.value == s.contenders[s.files[f].maker].pid
  }

  predicate MakerDead(s: State, f: nat) {
    f < |s.files| && s.files[f].maker < |s.contenders| && s.contenders[s.files[f].maker].pid !in s.alive
  }

  /** What the protocol position of a live contender says about the lock path. */
  predicate Position(s: State, w: nat)
    requires w < |s.contenders|
  {
    match PCOf(s, w)
    case Outside => true
    case Created(f) => s.path == Some(f) && f < |s.files| && s.files[f] == File(w, None)
    case Inside(f) => s.path == Some(f) && f < |s.files| && s.files[f] == File(w, Some(s.contenders[w].pid))
    case Opened(f) => s.path == Some(f)
    case Compared(f) => false
    case Read(f, c) => s.path == Some(f) && f < |s.files| && s.files[f].content == c
    case Condemned(f) => s.path == Some(f) && Written(s, f) && MakerDead(s, f)
    case Deleting(f) => s.path == Some(f) && Written(s, f) && MakerDead(s, f)
  }

  ghost predicate Inv(s: State) {
    && s.platform.Windows?
    && (s.path.Some? ==> s.path.value < |s.files|)
    && (forall f: nat :: f < |s.files| ==> s.files[f].maker < |s.contenders|)
    && (forall f: nat :: f < |s.files| && s.files[f].content.Some? ==> Written(s, f))
    && (forall w: nat :: Live(s, w) ==> Position(s, w))
    && (forall v: nat, w: nat, f: nat {:trigger HasHandle(s, v, f), HasHandle(s, w, f)} ::
          HasHandle(s, v, f) && HasHandle(s, w, f) ==> v == w)
  }

  /** A file about to be deleted is nobody else's business: its handle is exclusive, its maker dead. */
  lemma DeletingIsAlone(s: State, v: nat, w: nat)
    requires Inv(s) && Live(s, v) && Live(s, w) && PCOf(s, v).Deleting? && v != w
    ensures PCOf(s, w).Outside?
  {
    assert Position(s, v) && Position(s, w);
    assert HasHandle(s, v, PCOf(s, v).f);
    assert HasHandle(s, w, PCOf(s, v).f) ==> v == w;
  }

  lemma StepKeepsPosition(s: State, a: Action, w: nat)
    requires Inv(s) && Can(s, a) && Live(Do(s, a), w)
    ensures Live(s, w) && Position(Do(s, a), w)
  {
    assert Live(s, w) && Position(s, w);
    assert Reclaiming(PCOf(s, w)) || PCOf(s, w).Created? ==> HasHandle(s, w, PCOf(s, w).f);
    if a.Die? {
      if v: nat :| Live(s, v) && s.contenders[v].pid == a.pid && PCOf(s, v).Deleting? {
        DeletingIsAlone(s, v, w);
      }
    } else if w != a.w {
      assert Position(s, a.w);
      assert a.Exit? && s.path.Some? ==> !HasHandle(s, w, s.path.value);
      assert a.Publish? ==> HasHandle(s, a.w, PCOf(s, a.w).f);
      if a.Close? && PCOf(s, a.w).Deleting? {
        DeletingIsAlone(s, a.w, w);
      }
    }
  }

  lemma StepKeepsHandles(s: State, a: Action, v: nat, w: nat, f: nat)
    requires Inv(s) && Can(s, a) && HasHandle(Do(s, a), v, f) && HasHandle(Do(s, a), w, f)
    ensures v == w
  {
    assert Live(s, v) && Live(s, w);
    assert Position(s, v) && Position(s, w);
    assert a.Open? && f == s.path.value ==> !HasHandle(s, v, f) && !HasHandle(s, w, f);
    assert HasHandle(s, v, f) && HasHandle(s, w, f) ==> v == w;
  }

  lemma StepKeeps(s: State, a: Action)
    requires Inv(s) && Can(s, a)
    ensures Inv(Do(s, a))
  {
    forall w: nat | Live(Do(s, a), w)
      ensures Position(Do(s, a), w)
    {
      StepKeepsPosition(s, a, w);
    }
    forall v: nat, w: nat, f: nat | HasHandle(Do(s, a), v, f) && HasHandle(Do(s, a), w, f)
      ensures v == w
    {
      StepKeepsHandles(s, a, v, w, f);
    }
  }

  lemma {:induction false} RunInv(ss: seq<State>, i: nat)
    requires Run(ss) && ss[0].platform.Windows? && i < |ss|
    ensures Inv(ss[i])
  {
    if i > 0 {
      RunInv(ss, i - 1);
      var a := ActionAt(ss, i - 1);
      StepKeeps(ss[i - 1], a);
    }
  }

  lemma OneInside(s: State, v: nat, w: nat)
    requires Inv(s) && Live(s, v) && Live(s, w) && PCOf(s, v).Inside? && PCOf(s, w).Inside?
    ensures v == w && s.path == Some(PCOf(s, w).f) && s.files[PCOf(s, w).f].maker == w
  {
  }

  /** In every Windows run at most one live contender is inside, and it made the lock file. */
  lemma MutualExclusion(ss: seq<State>, i: nat, v: nat, w: nat)
    requires Run(ss) && ss[0].platform.Windows? && i < |ss|
    requires Live(ss[i], v) && Live(ss[i], w) && PCOf(ss[i], v).Inside? && PCOf(ss[i], w).Inside?
    ensures v == w
    ensures ss[i].path == Some(PCOf(ss[i], w).f)
    ensures PCOf(ss[i], w).f < |ss[i].files| && ss[i].files[PCOf(ss[i], w).f].maker == w
  {
    RunInv(ss, i);
    OneInside(ss[i], v, w);
  }

  /** A step takes the file off the path only on its maker's exit or after its maker's death. */
  lemma StepSparesTheLiving(s: State, a: Action)
    requires Inv(s) && Can(s, a) && s.path.Some? && Do(s, a).path != s.path
    ensures var f := s.path.value;
      var w := s.files[f].maker;
      (MakerDead(s, f) && Written(s, f)) || (Live(s, w) && PCOf(s, w) == Inside(f) && a == Exit(w))
  {
  }

  /**
   In every Windows run the lock file leaves its path only when the live contender that made it
   exits, or when its maker is dead: no reclaim deletes a live process's file, written or not.
   */
  lemma ReclaimSparesTheLiving(ss: seq<State>, i: nat)
    requires Run(ss) && ss[0].platform.Windows? && i + 1 < |ss|
    requires ss[i].path.Some? && ss[i + 1].path != ss[i].path
    ensures var f := ss[i].path.value;
      && f < |ss[i].files|
      && var w := ss[i].files[f].maker;
         || (MakerDead(ss[i], f) && Written(ss[i], f))
         || (Live(ss[i], w) && PCOf(ss[i], w) == Inside(f)
             && Can(ss[i], Exit(w)) && ss[i + 1] == Do(ss[i], Exit(w)))
  {
    RunInv(ss, i);
    var a := ActionAt(ss, i);
    StepSparesTheLiving(ss[i], a);
  }

  /** The lock file was left empty by a process that died between create and write. */
  predicate Orphaned(s: State) {
    && s.path.Some? && s.path.value < |s.files|
    && s.files[s.path.value].content.None? && MakerDead(s, s.path.value)
  }

  lemma StepKeepsOrphan(s: State, a: Action)
    requires Inv(s) && Orphaned(s) && Can(s, a)
    ensures Orphaned(Do(s, a)) && Do(s, a).path == s.path
  {
  }

  lemma OrphanExcludes(s: State, w: nat)
    requires Inv(s) && Orphaned(s)
    ensures !(Live(s, w) && PCOf(s, w).Inside?)
  {
  }

  lemma {:induction false} OrphanStays(ss: seq<State>, i: nat, j: nat)
    requires Run(ss) && ss[0].platform.Windows? && i <= j < |ss| && Orphaned(ss[i])
    ensures Orphaned(ss[j]) && ss[j].path == ss[i].path
  {
    if i < j {
      OrphanStays(ss, i, j - 1);
      RunInv(ss, j - 1);
      var a := ActionAt(ss, j - 1);
      StepKeepsOrphan(ss[j - 1], a);
    }
  }

  /** An orphaned lock stays for ever, and nobody enters: the reclaim finds no owner in it to judge. */
  lemma OrphanLocksOutForever(ss: seq<State>, i: nat, j: nat, w: nat)
    requires Run(ss) && ss[0].platform.Windows? && i <= j < |ss| && Orphaned(ss[i])
    ensures ss[j].path == ss[i].path
    ensures !(Live(ss[j], w) && PCOf(ss[j], w).Inside?)
  {
    OrphanStays(ss, i, j);
    RunInv(ss, j);
    OrphanExcludes(ss[j], w);
  }

  predicate NamesDeadOwner(s: State, f: nat) {
    f < |s.files| && s.files[f].content.Some? && s.files[f].content.value !in s.alive
  }

  /** The steps of one reclaim by contender `w`. */
  function Reclaim(w: nat): seq<Action> {
    [Open(w), ReadOwner(w), Judge(w), Delete(w), Close(w)]
  }

  ghost predicate CanAll(s: State, actions: seq<Action>)
    decreases |actions|
  {
    actions == [] || (Can(s, actions[0]) && CanAll(Do(s, actions[0]), actions[1..]))
  }

  ghost function DoAll(s: State, actions: seq<Action>): State
    requires CanAll(s, actions)
    decreases |actions|
  {
    if actions == [] then s else DoAll(Do(s, actions[0]), actions[1..])
  }

  /** An unopened lock file can always be inspected, through a handle that shuts everyone out. */
  lemma ReclaimReads(s: State, w: nat)
    requires Inv(s) && Live(s, w) && PCOf(s, w).Outside? && s.path.Some? && Unopened(s, s.path.value)
    ensures Can(s, Open(w)) && Can(Do(s, Open(w)), ReadOwner(w))
    ensures Do(Do(s, Open(w)), ReadOwner(w)) == Goto(s, w, Read(s.path.value, s.files[s.path.value].content))
  {
  }

  /** Deleting a condemned file and closing its handle frees the path and touches nothing else. */
  lemma ReclaimDeletes(s: State, w: nat, f: nat)
    requires s.platform.Windows? && Live(s, w) && PCOf(s, w) == Condemned(f) && s.path == Some(f)
    ensures Can(s, Delete(w)) && Can(Do(s, Delete(w)), Close(w))
    ensures Do(Do(s, Delete(w)), Close(w)) == Goto(s, w, Outside).(path := None)
  {
    assert Do(s, Delete(w)) == Goto(s, w, Deleting(f));
  }

  /**
   An unopened lock file is reclaimed by whoever is outside exactly when it names a dead owner, and the
   reclaim then frees the path and changes nothing else.
   */
  lemma ReclaimableExactly(s: State, w: nat)
    requires Inv(s) && Live(s, w) && PCOf(s, w).Outside? && s.path.Some? && Unopened(s, s.path.value)
    ensures CanAll(s, Reclaim(w)) <==> NamesDeadOwner(s, s.path.value)
    ensures CanAll(s, Reclaim(w)) ==> DoAll(s, Reclaim(w)) == s.(path := None)
  {
    var f := s.path.value;
    var read := Goto(s, w, Read(f, s.files[f].content));
    ReclaimReads(s, w);
    ReclaimUnfolds(s, w);
    assert Can(read, Judge(w)) <==> NamesDeadOwner(s, f);
    if NamesDeadOwner(s, f) {
      var condemned := Goto(s, w, Condemned(f));
      assert Do(read, Judge(w)) == condemned;
      ReclaimDeletes(condemned, w, f);
      assert Goto(condemned, w, Outside).contenders == s.contenders;
    }
  }

  /** The five steps one by one. */
  lemma ReclaimUnfolds(s: State, w: nat)
    requires Can(s, Open(w)) && Can(Do(s, Open(w)), ReadOwner(w))
    ensures var read := Do(Do(s, Open(w)), ReadOwner(w));
      CanAll(s, Reclaim(w)) <==>
        && Can(read, Judge(w)) && Can(Do(read, Judge(w)), Delete(w))
        && Can(Do(Do(read, Judge(w)), Delete(w)), Close(w))
    ensures CanAll(s, Reclaim(w)) ==>
              DoAll(s, Reclaim(w)) == Do(Do(Do(Do(Do(s, Open(w)), ReadOwner(w)), Judge(w)), Delete(w)), Close(w))
  {
    var read := Do(Do(s, Open(w)), ReadOwner(w));
    var r1 := [ReadOwner(w), Judge(w), Delete(w), Close(w)];
    var r2, r3, r4 := r1[1..], [Delete(w), Close(w)], [Close(w)];
    assert Reclaim(w)[1..] == r1 && r1[1..] == r2 && r2[1..] == r3 && r3[1..] == r4 && r4[1..] == [];
    assert CanAll(s, Reclaim(w)) <==> CanAll(Do(s, Open(w)), r1);
    assert CanAll(Do(s, Open(w)), r1) <==> CanAll(read, r2);
    if Can(read, Judge(w)) {
      var judged := Do(read, Judge(w));
      assert CanAll(read, r2) <==> CanAll(judged, r3);
      if Can(judged, Delete(w)) {
        assert CanAll(judged, r3) <==> CanAll(Do(judged, Delete(w)), r4);
        assert CanAll(Do(judged, Delete(w)), r4) <==> Can(Do(judged, Delete(w)), Close(w));
        if Can(Do(judged, Delete(w)), Close(w)) {
          var deleted := Do(judged, Delete(w));
          assert DoAll(deleted, r4) == DoAll(Do(deleted, Close(w)), []);
          assert DoAll(judged, r3) == DoAll(deleted, r4);
          assert DoAll(read, r2) == DoAll(judged, r3);
          assert DoAll(Do(s, Open(w)), r1) == DoAll(read, r2);
        }
      }
    }
  }

  // The POSIX branch

  ghost predicate Reachable(s: State) {
    exists ss :: Run(ss) && s == ss[|ss| - 1]
  }

  /** A run comes to `s` and goes on to `t`. */
  ghost predicate Leads(s: State, t: State) {
    exists ss: seq<State>, i: nat :: Run(ss) && i < |ss| && ss[i] == s && ss[|ss| - 1] == t
  }

  lemma Arrive(s: State)
    requires Reachable(s)
    ensures Leads(s, s)
  {
    var ss :| Run(ss) && s == ss[|ss| - 1];
    var i: nat := |ss| - 1;
    assert ss[i] == s && ss[|ss| - 1] == s;
  }

  lemma Follow(o: State, s: State, a: Action, t: State)
    requires Leads(o, s) && Can(s, a) && t == Do(s, a)
    ensures Leads(o, t)
  {
    var ss: seq<State>, k: nat :| Run(ss) && k < |ss| && ss[k] == o && ss[|ss| - 1] == s;
    var tt := ss + [t];
    forall i: nat | i + 1 < |tt|
      ensures StepAt(tt, i)
    {
      if i + 1 < |ss| {
        var b := ActionAt(ss, i);
        assert Can(tt[i], b) && tt[i + 1] == Do(tt[i], b);
      } else {
        assert Can(tt[i], a) && tt[i + 1] == Do(tt[i], a);
      }
    }
    assert Run(tt) && tt[k] == o && tt[|tt| - 1] == t;
  }

  lemma {:induction false} PathKnown(ss: seq<State>, i: nat)
    requires Run(ss) && i < |ss|
    ensures ss[i].path.Some? ==> ss[i].path.value < |ss[i].files|
  {
    if i > 0 {
      PathKnown(ss, i - 1);
      var a := ActionAt(ss, i - 1);
    }
  }

  /** What the protocol position of a live contender says about the lock path on POSIX. */
  predicate PosixPosition(s: State, w: nat)
    requires w < |s.contenders|
  {
    match PCOf(s, w)
    case Created(f) => s.path == Some(f) && f < |s.files| && s.files[f] == File(w, None)
    case Inside(f) => s.path == Some(f) && f < |s.files| && s.files[f] == File(w, Some(s.contenders[w].pid))
    case Opened(f) => f < |s.files|
    case Compared(f) => f < |s.files|
    case Read(f, c) => f < |s.files| && (c.Some? ==> s.files[f].content == c)
    case Condemned(f) => f < |s.files| && s.files[f].content.Some? && s.files[f].content.value !in s.alive
    case Deleting(f) => false
    case Outside => true
  }

  ghost predicate PosixInv(s: State) {
    && s.platform.Posix?
    && (s.path.Some? ==> s.path.value < |s.files|)
    && (forall w: nat :: Live(s, w) ==> PosixPosition(s, w))
  }

  /** Contender `v` is entering or inside with the file that the path names. */
  predicate Occupies(s: State, v: nat) {
    Live(s, v) && s.path.Some? && (PCOf(s, v) == Created(s.path.value) || PCOf(s, v) == Inside(s.path.value))
  }

  /** The action does not unlink the file of a contender that is entering or inside. */
  ghost predicate Spares(s: State, a: Action) {
    a.Delete? ==> forall v: nat :: !Occupies(s, v)
  }

  ghost predicate SparesAt(ss: seq<State>, i: nat)
    requires i + 1 < |ss|
  {
    exists a :: Can(ss[i], a) && ss[i + 1] == Do(ss[i], a) && Spares(ss[i], a)
  }

  ghost predicate SparingRun(ss: seq<State>) {
    Run(ss) && ss[0].platform.Posix? && forall i: nat :: i + 1 < |ss| ==> SparesAt(ss, i)
  }

  lemma StepKeepsPosixPosition(s: State, a: Action, w: nat)
    requires PosixInv(s) && Can(s, a) && Spares(s, a) && Live(Do(s, a), w)
    ensures Live(s, w) && PosixPosition(Do(s, a), w)
  {
    assert Live(s, w) && PosixPosition(s, w);
    assert a.Delete? ==> !Occupies(s, w);
    if !a.Die? && w != a.w {
      assert PosixPosition(s, a.w);
    }
  }

  lemma StepKeepsPosix(s: State, a: Action)
    requires PosixInv(s) && Can(s, a) && Spares(s, a)
    ensures PosixInv(Do(s, a))
  {
    forall w: nat | Live(Do(s, a), w)
      ensures PosixPosition(Do(s, a), w)
    {
      StepKeepsPosixPosition(s, a, w);
    }
  }

  lemma {:induction false} SparingRunInv(ss: seq<State>, i: nat)
    requires SparingRun(ss) && i < |ss|
    ensures PosixInv(ss[i])
  {
    if i > 0 {
      SparingRunInv(ss, i - 1);
      assert SparesAt(ss, i - 1);
      var a :| Can(ss[i - 1], a) && ss[i] == Do(ss[i - 1], a) && Spares(ss[i - 1], a);
      StepKeepsPosix(ss[i - 1], a);
    }
  }

  /** A deletion that does not spare breaks the order of the lock at once. */
  lemma OrderlyStepSpares(s: State, a: Action)
    requires PosixInv(s) && Can(s, a) && PosixInv(Do(s, a))
    ensures Spares(s, a)
  {
    if a.Delete? {
      forall v: nat
        ensures !Occupies(s, v)
      {
        assert Live(s, v) && v != a.w ==> Live(Do(s, a), v) && PosixPosition(Do(s, a), v);
      }
    }
  }

  /** On POSIX the lock stays in order in exactly the runs whose deletions spare whoever is entering or inside. */
  lemma PosixOrderExactly(ss: seq<State>)
    requires Run(ss) && ss[0].platform.Posix?
    ensures (forall i: nat :: i < |ss| ==> PosixInv(ss[i])) <==> SparingRun(ss)
  {
    if SparingRun(ss) {
      forall i: nat | i < |ss|
        ensures PosixInv(ss[i])
      {
        SparingRunInv(ss, i);
      }
    }
    if forall i: nat :: i < |ss| ==> PosixInv(ss[i]) {
      forall i: nat | i + 1 < |ss|
        ensures SparesAt(ss, i)
      {
        var a := ActionAt(ss, i);
        OrderlyStepSpares(ss[i], a);
      }
    }
  }

  /** In these runs at most one live contender is inside. */
  lemma SparingPosixExcludes(ss: seq<State>, i: nat, v: nat, w: nat)
    requires SparingRun(ss) && i < |ss|
    requires Live(ss[i], v) && Live(ss[i], w) && PCOf(ss[i], v).Inside? && PCOf(ss[i], w).Inside?
    ensures v == w
    ensures ss[i].path == Some(PCOf(ss[i], w).f)
  {
    SparingRunInv(ss, i);
    assert PosixPosition(ss[i], v) && PosixPosition(ss[i], w);
  }

  /** While the lock is in order, a deletion that still finds the file that it compared spares everyone. */
  lemma ComparedDeletionSpares(s: State, w: nat)
    requires PosixInv(s) && Live(s, w) && PCOf(s, w).Condemned? && s.path == Some(PCOf(s, w).f)
    ensures Spares(s, Delete(w))
  {
    assert PosixPosition(s, w);
    forall v: nat
      ensures !Occupies(s, v)
    {
      assert Live(s, v) ==> PosixPosition(s, v);
    }
  }

  /** Any other deletion leads to two inside, as soon as a further contender is outside. */
  lemma UnsparingDeletionAdmitsTwo(s: State, w: nat, v: nat, x: nat)
    requires Reachable(s) && s.platform.Posix? && Live(s, w) && PCOf(s, w).Condemned?
    requires Occupies(s, v) && Live(s, x) && PCOf(s, x).Outside?
    ensures exists t: State :: Leads(s, t) && BothInside(t, v, x)
  {
    var ss :| Run(ss) && s == ss[|ss| - 1];
    PathKnown(ss, |ss| - 1);
    Arrive(s);
    var t := Goto(s, w, Outside).(path := None);
    Follow(s, s, Delete(w), t);
    if PCOf(s, v).Created? {
      var f := PCOf(t, v).f;
      var u := Goto(t, v, Inside(f)).(files := t.files[f := t.files[f].(content := Some(t.contenders[v].pid))]);
      Follow(s, t, Publish(v), u);
      t := u;
    }
    t := TakeEnter(s, t, x);
    assert BothInside(t, v, x);
  }

  function Scene(path: Option<nat>, files: seq<File>, alive: set<Pid>, a: PC, b: PC, c: PC, d: PC): State {
    State(Posix, path, files, alive, [Contender(1, a), Contender(2, b), Contender(3, c), Contender(4, d)])
  }

  const FIRST := File(0, Some(1))

  const SECOND := File(2, Some(3))

  /** A contender creates the free lock file and writes its pid. */
  lemma TakeEnter(o: State, s: State, w: nat) returns (t: State)
    requires Leads(o, s) && Live(s, w) && PCOf(s, w).Outside? && s.path.None?
    ensures Leads(o, t)
    ensures t == Goto(s, w, Inside(|s.files|)).(
                   path := Some(|s.files|), files := s.files + [File(w, Some(s.contenders[w].pid))])
  {
    var n := |s.files|;
    var made := Goto(s, w, Created(n)).(path := Some(n), files := s.files + [File(w, None)]);
    Follow(o, s, Create(w), made);
    t := Goto(s, w, Inside(n)).(path := Some(n), files := s.files + [File(w, Some(s.contenders[w].pid))]);
    assert made.files[n := made.files[n].(content := Some(s.contenders[w].pid))] == t.files;
    Follow(o, made, Publish(w), t);
  }

  /** A reclaimer that compared a dead owner's file unlinks whatever the path names by then. */
  lemma TakeReclaim(o: State, s: State, w: nat, f: nat) returns (t: State)
    requires Leads(o, s) && s.platform.Posix? && Live(s, w) && PCOf(s, w) == Compared(f) && f < |s.files|
    requires s.files[f].content.Some? && s.files[f].content.value !in s.alive
    ensures Leads(o, t) && t == Goto(s, w, Outside).(path := None)
  {
    var seen := Goto(s, w, Read(f, s.files[f].content));
    Follow(o, s, ReadOwner(w), seen);
    Follow(o, seen, Judge(w), Goto(s, w, Condemned(f)));
    t := Goto(s, w, Outside).(path := None);
    Follow(o, Goto(s, w, Condemned(f)), Delete(w), t);
  }

  const START := Scene(None, [], {1, 2, 3, 4}, Outside, Outside, Outside, Outside)

  lemma ReachFirstInside()
    ensures Leads(START, Scene(Some(0), [FIRST], {1, 2, 3, 4}, Inside(0), Outside, Outside, Outside))
  {
    assert Run([START]) && START == [START][0];
    Arrive(START);
    var t := TakeEnter(START, START, 0);
    assert t.contenders == Scene(None, [], {}, Inside(0), Outside, Outside, Outside).contenders;
  }

  /** Contender 1 compares the inode of contender 0's file. */
  lemma ReachComparison()
    ensures Leads(START, Scene(Some(0), [FIRST], {1, 2, 3, 4}, Inside(0), Compared(0), Outside, Outside))
  {
    ReachFirstInside();
    var s := Scene(Some(0), [FIRST], {1, 2, 3, 4}, Inside(0), Outside, Outside, Outside);
    var t := Scene(Some(0), [FIRST], {1, 2, 3, 4}, Inside(0), Opened(0), Outside, Outside);
    Follow(START, s, Open(1), t);
    s := Scene(Some(0), [FIRST], {1, 2, 3, 4}, Inside(0), Compared(0), Outside, Outside);
    Follow(START, t, Compare(1), s);
  }

  /** Contender 0 exits and dies, and contender 2 enters. */
  lemma ReachStaleComparison()
    ensures Leads(START, Scene(Some(1), [FIRST, SECOND], {2, 3, 4}, Outside, Compared(0), Inside(1), Outside))
  {
    ReachComparison();
    var s := Scene(Some(0), [FIRST], {1, 2, 3, 4}, Inside(0), Compared(0), Outside, Outside);
    var t := Scene(None, [FIRST], {1, 2, 3, 4}, Outside, Compared(0), Outside, Outside);
    Follow(START, s, Exit(0), t);
    s := Scene(None, [FIRST], {2, 3, 4}, Outside, Compared(0), Outside, Outside);
    Follow(START, t, Die(1), s);
    t := TakeEnter(START, s, 2);
    assert t.contenders == Scene(None, [], {}, Outside, Compared(0), Inside(1), Outside).contenders;
  }

  /** The stale verdict of contender 1 unlinks the live file. */
  lemma ReachUnlinked()
    ensures Leads(START, Scene(None, [FIRST, SECOND], {2, 3, 4}, Outside, Outside, Inside(1), Outside))
  {
    ReachStaleComparison();
    var s := Scene(Some(1), [FIRST, SECOND], {2, 3, 4}, Outside, Compared(0), Inside(1), Outside);
    var t := TakeReclaim(START, s, 1, 0);
    assert t.contenders == Scene(None, [], {}, Outside, Outside, Inside(1), Outside).contenders;
  }

  predicate BothInside(s: State, v: nat, w: nat) {
    v != w && Live(s, v) && Live(s, w) && PCOf(s, v).Inside? && PCOf(s, w).Inside?
  }

  /** Contender 3 enters next to the live contender 2. */
  lemma PosixReclaimAdmitsTwo()
    ensures exists s: State, v: nat, w: nat :: s.platform.Posix? && Reachable(s) && BothInside(s, v, w)
  {
    ReachUnlinked();
    var s := Scene(None, [FIRST, SECOND], {2, 3, 4}, Outside, Outside, Inside(1), Outside);
    var t := TakeEnter(START, s, 3);
    assert BothInside(t, 2, 3);
  }

  // An orphan on Windows

  /** A process that dies between creating the lock file and writing it leaves an orphan. */
  lemma OrphanIsReachable()
    ensures exists s: State :: s.platform.Windows? && Reachable(s) && Orphaned(s)
  {
    var s := State(Windows, None, [], {1}, [Contender(1, Outside)]);
    assert Run([s]) && s == [s][0];
    Arrive(s);
    var made := State(Windows, Some(0), [File(0, None)], {1}, [Contender(1, Created(0))]);
    Follow(s, s, Create(0), made);
    var left := State(Windows, Some(0), [File(0, None)], {}, [Contender(1, Created(0))]);
    Follow(s, made, Die(1), left);
  }
}
