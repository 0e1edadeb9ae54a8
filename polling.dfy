/** The readiness polling of two remote files: the bounded loop of the
    current handler (at most 60 rounds) and the unbounded `while True` loop
    of the earlier draft, each as a specification over the scripted service
    and as a method over the gateway and the host proved to follow it. Round
    k reads the user file, then the reference file, once each; either read
    may raise, which ends the loop. */
module Polling {
  import opened Wrappers
  import opened Remote

  /** The ceiling on polling rounds of the bounded loop, `max_wait`. */
  const MaxWait: nat := 60

  /** Which two files are polled, and how many `files.get` calls preceded the loop. */
  datatype Watch = Watch(user: nat, reference: nat, start: nat)

  /** How a polling loop ends: both files active in the given round, a failed
      file in the given round (with the two answers of that round), a
      `files.get` call that raised in the given round (the user file's read,
      or the reference file's read after the user file's answered), or the
      ceiling reached. */
  datatype Verdict =
    | Ready(round: nat)
    | FailedIn(round: nat, user: Poll, reference: Poll)
    | GetRaised(round: nat, ofReference: bool, message: string)
    | Timeout

  function UserAt(s: Script, w: Watch, k: nat): Result<Poll, string>
  {
    s.StateAnswer(w.start + 2 * k)
  }

  function ReferenceAt(s: Script, w: Watch, k: nat): Result<Poll, string>
  {
    s.StateAnswer(w.start + 2 * k + 1)
  }

  predicate BothActive(user: Poll, reference: Poll)
  {
    user.state == Active && reference.state == Active
  }

  predicate AnyFailed(user: Poll, reference: Poll)
  {
    user.state == Failed || reference.state == Failed
  }

  /** Both reads of round k return a state. */
  predicate Answered(s: Script, w: Watch, k: nat)
  {
    UserAt(s, w, k).Success? && ReferenceAt(s, w, k).Success?
  }

  /** Round k reads both files as ACTIVE. */
  predicate ActiveIn(s: Script, w: Watch, k: nat)
  {
    Answered(s, w, k) && BothActive(UserAt(s, w, k).value, ReferenceAt(s, w, k).value)
  }

  /** Round k reads both files, neither pair ACTIVE, and one of them FAILED. */
  predicate FailedAt(s: Script, w: Watch, k: nat)
  {
    && Answered(s, w, k)
    && !BothActive(UserAt(s, w, k).value, ReferenceAt(s, w, k).value)
    && AnyFailed(UserAt(s, w, k).value, ReferenceAt(s, w, k).value)
  }

  /** Round k ends the loop: a read raised, both files are active, or one of them failed. */
  predicate Terminal(s: Script, w: Watch, k: nat)
  {
    !Answered(s, w, k) || BothActive(UserAt(s, w, k).value, ReferenceAt(s, w, k).value)
      || AnyFailed(UserAt(s, w, k).value, ReferenceAt(s, w, k).value)
  }

  /** The verdict that a terminal round k gives. The user file is read
      first, so its exception wins; the states are examined only once both
      reads returned. */
  function VerdictAt(s: Script, w: Watch, k: nat): Verdict
  {
    if UserAt(s, w, k).Failure? then GetRaised(k, false, UserAt(s, w, k).error)
    else if ReferenceAt(s, w, k).Failure? then GetRaised(k, true, ReferenceAt(s, w, k).error)
    else if BothActive(UserAt(s, w, k).value, ReferenceAt(s, w, k).value) then Ready(k)
    else FailedIn(k, UserAt(s, w, k).value, ReferenceAt(s, w, k).value)
  }

  /** The bounded loop, from round k on. */
  function Bounded(s: Script, w: Watch, k: nat): (v: Verdict)
    requires k <= MaxWait
    ensures !v.Timeout? ==> k <= v.round < MaxWait
    decreases MaxWait - k
  {
    if k == MaxWait then Timeout
    else if Terminal(s, w, k) then VerdictAt(s, w, k)
    else Bounded(s, w, k + 1)
  }

  /** One round of the bounded loop, case by case in the order the round
      takes them: the user file's read raising, the reference file's read
      raising, both ACTIVE, a FAILED file, or on to the next round. */
  lemma BoundedStep(s: Script, w: Watch, k: nat)
    requires k < MaxWait
    ensures var u, r := UserAt(s, w, k), ReferenceAt(s, w, k);
      && (u.Failure? ==> Bounded(s, w, k) == GetRaised(k, false, u.error))
      && (u.Success? && r.Failure? ==> Bounded(s, w, k) == GetRaised(k, true, r.error))
      && (u.Success? && r.Success? && BothActive(u.value, r.value) ==> Bounded(s, w, k) == Ready(k))
      && (u.Success? && r.Success? && !BothActive(u.value, r.value) && AnyFailed(u.value, r.value) ==>
            Bounded(s, w, k) == FailedIn(k, u.value, r.value))
      && (u.Success? && r.Success? && !BothActive(u.value, r.value) && !AnyFailed(u.value, r.value) ==>
            Bounded(s, w, k) == Bounded(s, w, k + 1))
  {
  }

  /** Round `k` of a polling loop over the files `user` and `reference`: a
      `files.get` of the user file, then one of the reference file, where a
      read that raises ends the round at once; then the states are examined.
      `log` is the read log before the loop, so the answers are those of the
      round's positions in the log. The result says whether, and how, the
      round ends the loop. */
  method PollRound(gw: Gateway, host: Host, user: nat, reference: nat, ghost log: seq<nat>, k: nat)
    returns (ended: Option<Verdict>)
    requires user < |gw.uploads| && reference < |gw.uploads|
    requires gw.queried == log + Rounds(user, reference, k)
    modifies gw`queried, host`ticks
    ensures var w := Watch(user, reference, |log|);
      && ended == (if Terminal(gw.script, w, k) then Some(VerdictAt(gw.script, w, k)) else None)
      && gw.queried == log + (if ended.Some? then ReadsOf(w, ended.value) else Rounds(user, reference, k + 1))
      && host.ticks == old(host.ticks) + (if ended.Some? then 0 else 1)
      && (ended.Some? ==> !ended.value.Timeout? && ended.value.round == k)
  {
    var userState := gw.Get(user);
    if userState.Failure? {
      return Some(GetRaised(k, false, userState.error));
    }
    var referenceState := gw.Get(reference);
    if referenceState.Failure? {
      return Some(GetRaised(k, true, referenceState.error));
    }
    ExtendRounds(log, user, reference, k);
    if userState.value.state == Active && referenceState.value.state == Active {
      ended := Some(Ready(k));
    } else if userState.value.state == Failed || referenceState.value.state == Failed {
      ended := Some(FailedIn(k, userState.value, referenceState.value));
    } else {
      host.Sleep();
      ended := None;
    }
  }

  /** The bounded loop of the current handler: `max_wait = 60` rounds, each
      followed by a one-second sleep unless it ends the loop. The verdict
      says how the loop ended, `Timeout` when the rounds ran out. */
  method PollBounded(gw: Gateway, host: Host, user: nat, reference: nat) returns (v: Verdict)
    requires user < |gw.uploads| && reference < |gw.uploads|
    modifies gw`queried, host`ticks
    ensures var w := Watch(user, reference, |old(gw.queried)|);
      && v == Bounded(gw.script, w, 0)
      && gw.queried == old(gw.queried) + ReadsOf(w, v)
      && host.ticks == old(host.ticks) + SleepsOf(v)
  {
    ghost var log := gw.queried;
    ghost var w := Watch(user, reference, |log|);
    var maxWait := MaxWait;
    var waited := 0;
    while waited < maxWait
      invariant 0 <= waited <= maxWait
      invariant gw.queried == log + Rounds(user, reference, waited)
      invariant host.ticks == old(host.ticks) + waited
      invariant forall j :: 0 <= j < waited ==> !Terminal(gw.script, w, j)
    {
      var ended := PollRound(gw, host, user, reference, log, waited);
      if ended.Some? {
        BoundedEndsAtFirstTerminal(gw.script, w, 0, waited);
        return ended.value;
      }
      waited := waited + 1;
    }
    BoundedTimesOut(gw.script, w, 0);
    v := Timeout;
  }

  /** The `while True` loop of the draft, watched for at most `fuel` rounds,
      each followed by a one-second sleep unless it ends the loop. `None`
      means it is still polling when the fuel runs out. */
  method PollUnbounded(gw: Gateway, host: Host, user: nat, reference: nat, fuel: nat) returns (v: Option<Verdict>)
    requires user < |gw.uploads| && reference < |gw.uploads|
    modifies gw`queried, host`ticks
    ensures var w := Watch(user, reference, |old(gw.queried)|);
      && v == Unbounded(gw.script, w, 0, fuel)
      && gw.queried == old(gw.queried) + (if v.Some? then ReadsOf(w, v.value) else Rounds(user, reference, fuel))
      && host.ticks == old(host.ticks) + (if v.Some? then SleepsOf(v.value) else fuel)
  {
    ghost var log := gw.queried;
    ghost var w := Watch(user, reference, |log|);
    var watched := 0;
    while watched < fuel
      invariant 0 <= watched <= fuel
      invariant gw.queried == log + Rounds(user, reference, watched)
      invariant host.ticks == old(host.ticks) + watched
      invariant Unbounded(gw.script, w, 0, fuel) == Unbounded(gw.script, w, watched, fuel - watched)
    {
      var ended := PollRound(gw, host, user, reference, log, watched);
      if ended.Some? {
        return ended;
      }
      watched := watched + 1;
    }
    v := None;
  }

  /** The `files.get` calls a loop that ended with `v` made: both files per
      round, in that order, up to the call that raised or the last round. */
  function ReadsOf(w: Watch, v: Verdict): seq<nat>
  {
    if v.Timeout? then Rounds(w.user, w.reference, MaxWait)
    else if v.GetRaised? then Rounds(w.user, w.reference, v.round) + (if v.ofReference then [w.user, w.reference] else [w.user])
    else Rounds(w.user, w.reference, v.round + 1)
  }

  /** One-second sleeps a verdict took: one after every round that did not end the loop. */
  function SleepsOf(v: Verdict): nat
  {
    if v.Timeout? then MaxWait else v.round
  }

  /** The bounded loop ends in the first terminal round below the ceiling, and
      only there. */
  lemma {:induction false} BoundedEndsAtFirstTerminal(s: Script, w: Watch, k0: nat, k: nat)
    requires k0 <= k < MaxWait
    ensures Bounded(s, w, k0) == VerdictAt(s, w, k)
        <==> Terminal(s, w, k) && forall j :: k0 <= j < k ==> !Terminal(s, w, j)
    decreases k - k0
  {
    if k0 < k {
      BoundedEndsAtFirstTerminal(s, w, k0 + 1, k);
    }
  }

  /** A verdict other than a timeout is the verdict of a terminal round. */
  lemma {:induction false} BoundedVerdictIsTerminal(s: Script, w: Watch, k: nat)
    requires k <= MaxWait
    ensures var v := Bounded(s, w, k);
      !v.Timeout? ==> Terminal(s, w, v.round) && v == VerdictAt(s, w, v.round)
    decreases MaxWait - k
  {
    if k < MaxWait && !Terminal(s, w, k) {
      BoundedVerdictIsTerminal(s, w, k + 1);
    }
  }

  /** The bounded loop times out exactly when no round below the ceiling is terminal. */
  lemma {:induction false} BoundedTimesOut(s: Script, w: Watch, k0: nat)
    requires k0 <= MaxWait
    ensures Bounded(s, w, k0) == Timeout <==> forall j :: k0 <= j < MaxWait ==> !Terminal(s, w, j)
    decreases MaxWait - k0
  {
    if k0 < MaxWait {
      BoundedTimesOut(s, w, k0 + 1);
    }
  }

  /** Both files active in round k, after k non-terminal rounds (k < 60): the
      loop succeeds after k + 1 reads of each file and k sleeps. */
  lemma ReadyAfter(s: Script, w: Watch, k: nat)
    requires k < MaxWait
    requires ActiveIn(s, w, k)
    requires forall j :: 0 <= j < k ==> !Terminal(s, w, j)
    ensures Bounded(s, w, 0) == Ready(k)
    ensures ReadsOf(w, Bounded(s, w, 0)) == Rounds(w.user, w.reference, k + 1) && SleepsOf(Bounded(s, w, 0)) == k
  {
    BoundedEndsAtFirstTerminal(s, w, 0, k);
  }

  /** The unbounded loop, from round k on, watched for at most `fuel` rounds.
      `None` means it is still polling when the fuel runs out. */
  function Unbounded(s: Script, w: Watch, k: nat, fuel: nat): (v: Option<Verdict>)
    ensures v.Some? ==> !v.value.Timeout? && k <= v.value.round < k + fuel
    ensures v.Some? ==> Terminal(s, w, v.value.round) && v.value == VerdictAt(s, w, v.value.round)
    decreases fuel
  {
    if fuel == 0 then None
    else if Terminal(s, w, k) then Some(VerdictAt(s, w, k))
    else Unbounded(s, w, k + 1, fuel - 1)
  }

  /** One round of the unbounded loop, case by case in the order the round
      takes them. */
  lemma UnboundedStep(s: Script, w: Watch, k: nat, fuel: nat)
    requires 0 < fuel
    ensures var u, r := UserAt(s, w, k), ReferenceAt(s, w, k);
      && (u.Failure? ==> Unbounded(s, w, k, fuel) == Some(GetRaised(k, false, u.error)))
      && (u.Success? && r.Failure? ==> Unbounded(s, w, k, fuel) == Some(GetRaised(k, true, r.error)))
      && (u.Success? && r.Success? && BothActive(u.value, r.value) ==> Unbounded(s, w, k, fuel) == Some(Ready(k)))
      && (u.Success? && r.Success? && !BothActive(u.value, r.value) && AnyFailed(u.value, r.value) ==>
            Unbounded(s, w, k, fuel) == Some(FailedIn(k, u.value, r.value)))
      && (u.Success? && r.Success? && !BothActive(u.value, r.value) && !AnyFailed(u.value, r.value) ==>
            Unbounded(s, w, k, fuel) == Unbounded(s, w, k + 1, fuel - 1))
  {
  }

  /** If no round from k on is terminal, the unbounded loop never exits, however long it is watched. */
  lemma {:induction false} UnboundedDiverges(s: Script, w: Watch, k: nat, fuel: nat)
    requires forall j :: k <= j ==> !Terminal(s, w, j)
    ensures Unbounded(s, w, k, fuel) == None
    decreases fuel
  {
    if fuel > 0 {
      UnboundedDiverges(s, w, k + 1, fuel - 1);
    }
  }

  /** Watched long enough, the unbounded loop exits at the first terminal round. */
  lemma {:induction false} UnboundedExitsAtFirstTerminal(s: Script, w: Watch, k0: nat, k: nat, fuel: nat)
    requires k0 <= k < k0 + fuel
    requires Terminal(s, w, k) && forall j :: k0 <= j < k ==> !Terminal(s, w, j)
    ensures Unbounded(s, w, k0, fuel) == Some(VerdictAt(s, w, k))
    decreases k - k0
  {
    if k0 < k {
      UnboundedExitsAtFirstTerminal(s, w, k0 + 1, k, fuel - 1);
    }
  }

  /** When the first terminal round is below the ceiling, the two loops agree on it. */
  lemma LoopsAgreeBelowCeiling(s: Script, w: Watch, k: nat, fuel: nat)
    requires k < MaxWait && k < fuel
    requires Terminal(s, w, k) && forall j :: 0 <= j < k ==> !Terminal(s, w, j)
    ensures Unbounded(s, w, 0, fuel) == Some(Bounded(s, w, 0))
  {
    BoundedEndsAtFirstTerminal(s, w, 0, k);
    UnboundedExitsAtFirstTerminal(s, w, 0, k, fuel);
  }

  /** When the first terminal round is at or beyond the ceiling, the bounded
      loop gives up with a timeout while the unbounded one, watched long
      enough, still exits with that round's verdict. */
  lemma LoopsDifferBeyondCeiling(s: Script, w: Watch, k: nat)
    requires MaxWait <= k
    requires Terminal(s, w, k) && forall j :: 0 <= j < k ==> !Terminal(s, w, j)
    ensures Bounded(s, w, 0) == Timeout
    ensures Unbounded(s, w, 0, k + 1) == Some(VerdictAt(s, w, k))
  {
    BoundedTimesOut(s, w, 0);
    UnboundedExitsAtFirstTerminal(s, w, 0, k, k + 1);
  }
}
