/**
 The terminal monitor of one thread, and the bounded session that continues it after
 each newly completed turn.
 */
module ThreadMonitor {
  import opened Basics
  import opened Bridge

  datatype Event = BaselineTerminal | BaselineActive | NoChange | TerminalChanged | ActiveChanged

  predicate IsTerminal(s: ThreadStatus) {
    s.Completed? || s.OtherTerminal?
  }

  function FingerprintOf(s: ThreadState): Fingerprint {
    if s.turns == [] then Fingerprint(s.thread, s.status, None, None)
    else Fingerprint(s.thread, s.status, Some(s.turns[|s.turns| - 1].turn), Some(EffectiveStatus(s)))
  }

  /** What the monitor makes of a read, given the fingerprint it saved last. */
  function EventOf(saved: Option<Fingerprint>, s: ThreadState): Event {
    if saved.None? then (if IsTerminal(EffectiveStatus(s)) then BaselineTerminal else BaselineActive)
    else if saved.value == FingerprintOf(s) then NoChange
    else if IsTerminal(EffectiveStatus(s)) then TerminalChanged
    else ActiveChanged
  }

  datatype Observation = Observation(event: Event, status: ThreadStatus, fingerprint: Fingerprint)

  class ThreadTerminalMonitor {
    var saved: Option<Fingerprint>

    constructor (previous: Option<Fingerprint>)
      ensures saved == previous
    {
      saved := previous;
    }

    /** Observe one thread; nothing is returned, or saved, where the read raises or names another thread. */
    method Observe(thread: Id, read: Option<ThreadState>) returns (seen: Option<Observation>)
      modifies this
      ensures seen.Some? <==> read.Some? && read.value.thread == thread
      ensures seen.Some? ==> saved == Some(FingerprintOf(read.value))
      ensures seen.None? ==> saved == old(saved)
      ensures seen.Some? ==>
                seen.value == Observation(
                                EventOf(old(saved), read.value), EffectiveStatus(read.value),
                                FingerprintOf(read.value))
    {
      if read.None? || read.value.thread != thread {
        return None;
      }
      var state := read.value;
      var status, fingerprint := EffectiveStatus(state), FingerprintOf(state);
      var event;
      if saved.None? {
        event := if IsTerminal(status) then BaselineTerminal else BaselineActive;
      } else if saved.value == fingerprint {
        event := NoChange;
      } else if IsTerminal(status) {
        event := TerminalChanged;
      } else {
        event := ActiveChanged;
      }
      saved := Some(fingerprint);
      return Some(Observation(event, status, fingerprint));
    }
  }

  /** `provider` stands for a prompt callback; `maxContinuations` is an explicit budget. */
  datatype Spec = Spec(
    monitor: Id,
    observed: Id,
    target: Id,
    prompts: seq<string>,
    repeatLast: bool,
    maxContinuations: Option<nat>,
    provider: bool)

  predicate ValidSpec(s: Spec) {
    s.prompts != [] && (s.maxContinuations.Some? ==> s.maxContinuations.value > 0)
  }

  /** The configured prompt of a cycle, counted from one. */
  function ConfiguredPrompt(s: Spec, cycle: nat): Option<string>
    requires ValidSpec(s) && cycle >= 1
  {
    if cycle - 1 < |s.prompts| then Some(s.prompts[cycle - 1])
    else if s.repeatLast then Some(s.prompts[|s.prompts| - 1])
    else None
  }

  function BudgetConsumed(s: Spec, count: nat): bool {
    if s.maxContinuations.Some? then count >= s.maxContinuations.value
    else !s.provider && !s.repeatLast && count >= |s.prompts|
  }

  /** The most continuations of a session, where the specification bounds them. */
  function Budget(s: Spec): Option<nat> {
    if s.maxContinuations.Some? then
      Some(if s.provider || s.repeatLast then s.maxContinuations.value else Min(s.maxContinuations.value, |s.prompts|))
    else if s.provider || s.repeatLast then None
    else Some(|s.prompts|)
  }

  datatype Outcome = Stopped | Expired | Finished | NeedsReadback | Raised

  /** One poll: cancellation, the thread as read, the provided prompt, and the bridge call's surroundings. */
  datatype Poll = Poll(cancelled: bool, read: Option<ThreadState>, provided: Option<string>, call: Call)

  /** One continuation with the observation that triggered it. */
  datatype Continuation = Continuation(seen: Observation, prompt: string, receipt: Receipt)

  /** A continuation follows a changed, completed terminal and is bound to its fingerprint. */
  predicate Justified(c: Continuation) {
    c.seen.event.TerminalChanged? && c.seen.status.Completed?
  }

  ghost predicate SessionSound(s: Spec, cs: seq<Continuation>)
    requires ValidSpec(s)
  {
    && (forall i :: 0 <= i < |cs| ==> Justified(cs[i]))
    && (!s.provider ==> forall i :: 0 <= i < |cs| ==> ConfiguredPrompt(s, i + 1) == Some(cs[i].prompt))
    && (forall i :: 0 <= i < |cs| - 1 ==> cs[i].receipt.status.Done?)
    && (Budget(s).Some? ==> |cs| <= Budget(s).value)
  }

  predicate Trigger(o: Observation) {
    o.event.TerminalChanged? && o.status.Completed?
  }

  predicate EndedBadly(o: Observation) {
    o.event.TerminalChanged? && !o.status.Completed?
  }

  /** The observations that call for a continuation, in order. */
  function Triggers(os: seq<Observation>): seq<Observation> {
    if os == [] then []
    else Triggers(os[..|os| - 1]) + (if Trigger(os[|os| - 1]) then [os[|os| - 1]] else [])
  }

  function Seen(cs: seq<Continuation>): (r: seq<Observation>)
    ensures |r| == |cs|
  {
    if cs == [] then [] else Seen(cs[..|cs| - 1]) + [cs[|cs| - 1].seen]
  }

  /** Exactly the observations that call for it were continued, in order. */
  predicate Answered(os: seq<Observation>, cs: seq<Continuation>) {
    Seen(cs) == Triggers(os)
  }

  /** As `Answered`, but for the last observation, which called for a continuation and got none. */
  predicate LastUnanswered(os: seq<Observation>, cs: seq<Continuation>) {
    os != [] && Trigger(os[|os| - 1]) && Answered(os[..|os| - 1], cs)
  }

  /** There is no further prompt after `count` continuations, the budget is consumed, or the provider ends it. */
  predicate MayFinish(s: Spec, count: nat)
    requires ValidSpec(s)
  {
    BudgetConsumed(s, count) || s.provider || ConfiguredPrompt(s, count + 1).None?
  }

  /** One more observation is answered by one more continuation, or calls for none. */
  lemma AnsweredGrows(os: seq<Observation>, o: Observation, cs: seq<Continuation>, next: seq<Continuation>)
    requires Answered(os, cs)
    ensures !Trigger(o) ==> Answered(os + [o], cs)
    ensures Trigger(o) && Seen(next) == Seen(cs) + [o] ==> Answered(os + [o], next)
    ensures Trigger(o) ==> LastUnanswered(os + [o], cs)
  {
    assert (os + [o])[..|os|] == os;
  }

  lemma SeenGrows(cs: seq<Continuation>, next: seq<Continuation>)
    requires |next| == |cs| + 1 && next[..|cs|] == cs
    ensures Seen(next) == Seen(cs) + [next[|cs|].seen]
  {
  }

  predicate AllDone(cs: seq<Continuation>) {
    forall i :: 0 <= i < |cs| ==> cs[i].receipt.status.Done?
  }

  /** A session that may go on. */
  ghost predicate Going(s: Spec, cs: seq<Continuation>)
    requires ValidSpec(s)
  {
    SessionSound(s, cs) && AllDone(cs) && !BudgetConsumed(s, |cs|)
  }

  /** Between two polls: everything seen so far is answered, and nothing ended badly. */
  ghost predicate Ongoing(s: Spec, os: seq<Observation>, cs: seq<Continuation>)
    requires ValidSpec(s)
  {
    Going(s, cs) && Answered(os, cs) && (os != [] ==> !EndedBadly(os[|os| - 1]))
  }

  /**
   How a session ends: sound and answered, but for a last observation that got no prompt or no receipt; it
   asks for a read-back exactly after a bad end or a continuation that did not complete.
   */
  ghost predicate EndsWith(s: Spec, outcome: Outcome, os: seq<Observation>, cs: seq<Continuation>)
    requires ValidSpec(s)
  {
    && SessionSound(s, cs)
    && (Answered(os, cs) || LastUnanswered(os, cs))
    && (outcome.Expired? || outcome.Stopped? || outcome.NeedsReadback? ==> Answered(os, cs))
    && (outcome.NeedsReadback? <==>
          (os != [] && EndedBadly(os[|os| - 1])) || (cs != [] && !cs[|cs| - 1].receipt.status.Done?))
    && (outcome.Finished? ==> AllDone(cs) && MayFinish(s, |cs|))
  }

  /** A session that may go on stays sound with one more justified, configured continuation. */
  lemma SessionGrows(s: Spec, cs: seq<Continuation>, c: Continuation)
    requires ValidSpec(s) && Going(s, cs) && Justified(c)
    requires !s.provider ==> ConfiguredPrompt(s, |cs| + 1) == Some(c.prompt)
    ensures SessionSound(s, cs + [c])
    ensures c.receipt.status.Done? ==> AllDone(cs + [c])
  {
    var next := cs + [c];
    forall i | 0 <= i < |next|
      ensures Justified(next[i]) && (!s.provider ==> ConfiguredPrompt(s, i + 1) == Some(next[i].prompt))
      ensures i < |cs| ==> next[i].receipt.status.Done?
    {
      assert i < |cs| ==> next[i] == cs[i];
    }
  }

  class ContinuationMonitor {
    const monitor: ThreadTerminalMonitor
    const bridge: ExistingThreadBridge
    const spec: Spec

    constructor (m: ThreadTerminalMonitor, b: ExistingThreadBridge, s: Spec)
      requires ValidSpec(s)
      ensures monitor == m && bridge == b && spec == s
    {
      monitor, bridge, spec := m, b, s;
    }

    /** One bridge call starts one turn at most. */
    method Resume(request: Request, call: Call) returns (receipt: Option<Receipt>)
      modifies bridge, bridge.journal
      ensures old(bridge.starts) <= bridge.starts && |bridge.starts| <= |old(bridge.starts)| + 1
    {
      receipt := bridge.ResumeExisting(request, call);
    }

    /** One continuation after a newly completed turn; without an outcome the session goes on. */
    method Advance(seen: Observation, poll: Poll, cs: seq<Continuation>)
      returns (outcome: Option<Outcome>, next: seq<Continuation>)
      requires ValidSpec(spec) && Trigger(seen) && Going(spec, cs)
      modifies bridge, bridge.journal
      ensures SessionSound(spec, next)
      ensures outcome.None? ==> Going(spec, next)
      ensures outcome.None? || outcome.value.NeedsReadback? ==> |next| == |cs| + 1
      ensures outcome.Some? ==> outcome.value.Finished? || outcome.value.NeedsReadback? || outcome.value.Raised?
      ensures next == cs || Seen(next) == Seen(cs) + [seen]
      ensures old(bridge.starts) <= bridge.starts
      ensures |bridge.starts| <= |old(bridge.starts)| + |next| - |cs| + (if outcome == Some(Raised) then 1 else 0)
      ensures outcome == Some(Finished) ==> AllDone(next) && MayFinish(spec, |next|)
      ensures outcome == Some(NeedsReadback) <==> next != [] && !next[|next| - 1].receipt.status.Done?
      ensures outcome == Some(Raised) ==> next == cs
    {
      next := cs;
      if spec.provider && poll.provided == Some("") {
        return Some(Raised), next;
      }
      var prompt := NextPrompt(|cs| + 1, poll.provided);
      if prompt.None? {
        return Some(Finished), next;
      }
      var request := Request(Continue(spec.monitor, seen.fingerprint), spec.target, prompt.value);
      var receipt := Resume(request, poll.call);
      if receipt.None? {
        return Some(Raised), next;
      }
      next := cs + [Continuation(seen, prompt.value, receipt.value)];
      SeenGrows(cs, next);
      SessionGrows(spec, cs, next[|cs|]);
      if !receipt.value.status.Done? {
        return Some(NeedsReadback), next;
      }
      if BudgetConsumed(spec, |next|) {
        return Some(Finished), next;
      }
      return None, next;
    }

    /** One poll: observe, and continue after a newly completed turn; without an end the session goes on. */
    method OnePoll(poll: Poll, os: seq<Observation>, cs: seq<Continuation>)
      returns (end: Option<Outcome>, observations: seq<Observation>, continuations: seq<Continuation>)
      requires ValidSpec(spec) && Ongoing(spec, os, cs)
      modifies monitor, bridge, bridge.journal
      ensures end.None? ==> Ongoing(spec, observations, continuations)
      ensures end.Some? ==> EndsWith(spec, end.value, observations, continuations)
      ensures old(bridge.starts) <= bridge.starts && |cs| <= |continuations|
      ensures |bridge.starts| <= |old(bridge.starts)| + |continuations| - |cs| + (if end == Some(Raised) then 1 else 0)
    {
      observations, continuations := os, cs;
      var seen := monitor.Observe(spec.observed, poll.read);
      if seen.None? {
        return Some(Raised), observations, continuations;
      }
      observations := os + [seen.value];
      AnsweredGrows(os, seen.value, cs, cs);
      if EndedBadly(seen.value) {
        return Some(NeedsReadback), observations, continuations;
      }
      if Trigger(seen.value) {
        end, continuations := Advance(seen.value, poll, cs);
        AnsweredGrows(os, seen.value, cs, continuations);
        return;
      }
      return None, observations, continuations;
    }

    /** The session, of at most `deadline` polls before its lifetime is over. */
    method Run(deadline: nat, polls: nat -> Poll)
      returns (outcome: Outcome, observations: seq<Observation>, continuations: seq<Continuation>)
      requires ValidSpec(spec)
      modifies monitor, bridge, bridge.journal
      ensures EndsWith(spec, outcome, observations, continuations)
      ensures old(bridge.starts) <= bridge.starts
      ensures |bridge.starts| <= |old(bridge.starts)| + |continuations| + (if outcome.Raised? then 1 else 0)
    {
      observations, continuations := [], [];
      var i := 0;
      while true
        invariant Ongoing(spec, observations, continuations)
        invariant old(bridge.starts) <= bridge.starts
        invariant |bridge.starts| <= |old(bridge.starts)| + |continuations|
        decreases deadline - i
      {
        if polls(i).cancelled {
          return Stopped, observations, continuations;
        }
        if i >= deadline {
          return Expired, observations, continuations;
        }
        var end;
        end, observations, continuations := OnePoll(polls(i), observations, continuations);
        if end.Some? {
          return end.value, observations, continuations;
        }
        i := i + 1;
      }
    }

    function NextPrompt(cycle: nat, provided: Option<string>): (r: Option<string>)
      requires ValidSpec(spec) && cycle >= 1
      ensures !spec.provider ==> r == ConfiguredPrompt(spec, cycle)
    {
      if spec.provider then provided else ConfiguredPrompt(spec, cycle)
    }
  }
}
