/** The wake-key gesture recogniser (apps/macos/Sources/Mamachi/KeyActivation.swift:71-202).
    Times are reals on one clock; nothing is assumed about their order. */
module Gesture {
  import opened Protocol

  datatype Verdict = EngageHandsFree | BeginPushToTalk | EndPushToTalk | TapWhileEngaged

  datatype Phase =
    | Idle
    | FirstDown(at: real, poisoned: bool, engagedAtPress: bool)
    | TapPending(expiresAt: real)
    | PushToTalk
    | ConsumedDown

  datatype Tuning = Tuning(doubleTapWindow: real, holdThreshold: real)

  datatype Machine = Machine(phase: Phase, pendingDeadline: Option<real>)

  const ASLEEP := Machine(Idle, None)

  /** `engaged` is what `isEngaged()` answers while the press is handled. */
  datatype Input = Down(now: real, engaged: bool) | Up(now: real) | OtherDown(now: real) | Deadline(now: real)

  // ---------------------------------------------------------------------- the machine

  /** An expired or overtaken pending tap starts over as a fresh press. */
  function KeyDown(m: Machine, now: real, engaged: bool, tuning: Tuning): (Machine, Option<Verdict>)
    decreases m.phase.TapPending?
  {
    match m.phase
    case Idle =>
      (Machine(FirstDown(now, false, engaged), if engaged then None else Some(now + tuning.holdThreshold)), None)
    case TapPending(expiresAt) =>
      if now <= expiresAt && !engaged then (Machine(ConsumedDown, None), Some(EngageHandsFree))
      else KeyDown(Machine(Idle, None), now, engaged, tuning)
    case _ => (m, None)
  }

  /** What a fresh press does. */
  function Pressed(now: real, engaged: bool, tuning: Tuning): Machine {
    Machine(FirstDown(now, false, engaged), if engaged then None else Some(now + tuning.holdThreshold))
  }

  /** The recursion is at most one level deep. */
  lemma KeyDownUnfolds(m: Machine, now: real, engaged: bool, tuning: Tuning)
    ensures KeyDown(m, now, engaged, tuning)
         == match m.phase
            case Idle => (Pressed(now, engaged, tuning), None)
            case TapPending(expiresAt) =>
              if now <= expiresAt && !engaged then (Machine(ConsumedDown, None), Some(EngageHandsFree))
              else (Pressed(now, engaged, tuning), None)
            case _ => (m, None)
  {
  }

  function KeyUp(m: Machine, now: real, tuning: Tuning): (Machine, Option<Verdict>) {
    match m.phase
    case FirstDown(_, poisoned, engagedAtPress) =>
      if poisoned then (Machine(Idle, None), None)
      else if engagedAtPress then (Machine(Idle, None), Some(TapWhileEngaged))
      else (Machine(TapPending(now + tuning.doubleTapWindow), Some(now + tuning.doubleTapWindow)), None)
    case PushToTalk => (Machine(Idle, None), Some(EndPushToTalk))
    case ConsumedDown => (Machine(Idle, None), None)
    case _ => (m, None)
  }

  function OtherKeyDown(m: Machine): Machine {
    match m.phase
    case FirstDown(at, _, engagedAtPress) => Machine(FirstDown(at, true, engagedAtPress), None)
    case TapPending(_) => Machine(Idle, None)
    case _ => m
  }

  function DeadlineElapsed(m: Machine, now: real, tuning: Tuning): (Machine, Option<Verdict>) {
    match m.phase
    case FirstDown(at, poisoned, engagedAtPress) =>
      if poisoned || engagedAtPress || now - at < tuning.holdThreshold then (m, None)
      else (Machine(PushToTalk, None), Some(BeginPushToTalk))
    case TapPending(expiresAt) => if now < expiresAt then (m, None) else (Machine(Idle, None), None)
    case _ => (m, None)
  }

  function Feed(m: Machine, input: Input, tuning: Tuning): (Machine, Option<Verdict>) {
    match input
    case Down(now, engaged) => KeyDown(m, now, engaged, tuning)
    case Up(now) => KeyUp(m, now, tuning)
    case OtherDown(_) => (OtherKeyDown(m), None)
    case Deadline(now) => DeadlineElapsed(m, now, tuning)
  }

  /** The machine after a run, and the answer to each input. */
  function After(m: Machine, inputs: seq<Input>, tuning: Tuning): Machine {
    if inputs == [] then m
    else
      var n := |inputs| - 1;
      Feed(After(m, inputs[..n], tuning), inputs[n], tuning).0
  }

  function Answers(m: Machine, inputs: seq<Input>, tuning: Tuning): (r: seq<Option<Verdict>>)
    ensures |r| == |inputs|
  {
    if inputs == [] then []
    else
      var n := |inputs| - 1;
      Answers(m, inputs[..n], tuning) + [Feed(After(m, inputs[..n], tuning), inputs[n], tuning).1]
  }

  // -------------------------------------------------------------- the deadline, the timer

  /** The deadline the phase calls for. */
  function DeadlineOf(phase: Phase, tuning: Tuning): Option<real> {
    match phase
    case FirstDown(at, poisoned, engagedAtPress) =>
      if poisoned || engagedAtPress then None else Some(at + tuning.holdThreshold)
    case TapPending(expiresAt) => Some(expiresAt)
    case _ => None
  }

  lemma KeepsDeadline(m: Machine, input: Input, tuning: Tuning)
    requires m.pendingDeadline == DeadlineOf(m.phase, tuning)
    ensures var m' := Feed(m, input, tuning).0; m'.pendingDeadline == DeadlineOf(m'.phase, tuning)
  {
    if input.Down? { KeyDownUnfolds(m, input.now, input.engaged, tuning); }
  }

  lemma {:induction false} DeadlineMatchesPhase(inputs: seq<Input>, tuning: Tuning)
    ensures var m := After(ASLEEP, inputs, tuning); m.pendingDeadline == DeadlineOf(m.phase, tuning)
  {
    if inputs != [] {
      var n := |inputs| - 1;
      DeadlineMatchesPhase(inputs[..n], tuning);
      KeepsDeadline(After(ASLEEP, inputs[..n], tuning), inputs[n], tuning);
    }
  }

  /** A timer that calls back at the pending deadline always settles the phase: a held press begins
      push-to-talk, a lone tap is dropped, and nothing stays pending. */
  lemma TimerSettles(inputs: seq<Input>, tuning: Tuning)
    ensures var m := After(ASLEEP, inputs, tuning);
      m.pendingDeadline.Some? ==>
        var (m', verdict) := DeadlineElapsed(m, m.pendingDeadline.value, tuning);
        && m'.pendingDeadline.None?
        && (if m.phase.TapPending? then m'.phase == Idle && verdict.None?
            else m'.phase == PushToTalk && verdict == Some(BeginPushToTalk))
  {
    DeadlineMatchesPhase(inputs, tuning);
  }

  // -------------------------------------------------------------------- push-to-talk

  /** Push-to-talk has begun and not ended. */
  function Talking(answers: seq<Option<Verdict>>): bool {
    if answers == [] then false
    else
      var n := |answers| - 1;
      if answers[n] == Some(BeginPushToTalk) then true
      else if answers[n] == Some(EndPushToTalk) then false
      else Talking(answers[..n])
  }

  lemma TalkingStep(m: Machine, input: Input, tuning: Tuning)
    ensures var (m', verdict) := Feed(m, input, tuning);
      && (verdict == Some(BeginPushToTalk) ==> m.phase != PushToTalk && m'.phase == PushToTalk)
      && (verdict == Some(EndPushToTalk) ==> m.phase == PushToTalk && m'.phase != PushToTalk)
      && (verdict != Some(BeginPushToTalk) && verdict != Some(EndPushToTalk) ==>
            (m'.phase == PushToTalk) == (m.phase == PushToTalk))
  {
    if input.Down? { KeyDownUnfolds(m, input.now, input.engaged, tuning); }
  }

  /** Begin and end strictly alternate, a begin first, and the machine is listening exactly between
      them. */
  lemma {:induction false} PushToTalkAlternates(inputs: seq<Input>, tuning: Tuning)
    ensures Talking(Answers(ASLEEP, inputs, tuning)) == (After(ASLEEP, inputs, tuning).phase == PushToTalk)
    ensures forall n :: 0 <= n < |inputs| ==>
      var answers := Answers(ASLEEP, inputs, tuning);
      && (answers[n] == Some(BeginPushToTalk) ==> !Talking(answers[..n]))
      && (answers[n] == Some(EndPushToTalk) ==> Talking(answers[..n]))
  {
    if inputs != [] {
      var n := |inputs| - 1;
      PushToTalkAlternates(inputs[..n], tuning);
      TalkingStep(After(ASLEEP, inputs[..n], tuning), inputs[n], tuning);
      hide Feed;
      var answers, before := Answers(ASLEEP, inputs, tuning), Answers(ASLEEP, inputs[..n], tuning);
      assert answers[..n] == before;
      forall i | 0 <= i < n
        ensures answers[i] == before[i] && answers[..i] == before[..i]
      {
      }
    }
  }

  // ----------------------------------------------------------------- poisoned presses

  /** Once another key goes down during a press, nothing is answered up to and including the release,
      whatever else happens meanwhile. */
  lemma {:induction false} PoisonedPressIsSilent(m: Machine, other: real, meanwhile: seq<Input>, up: real,
                                                 tuning: Tuning)
    requires m.phase.FirstDown? && forall i :: 0 <= i < |meanwhile| ==> !meanwhile[i].Up?
    ensures var run := [OtherDown(other)] + meanwhile;
      && After(m, run, tuning) == Machine(FirstDown(m.phase.at, true, m.phase.engagedAtPress), None)
      && (forall i :: 0 <= i < |run| ==> Answers(m, run, tuning)[i].None?)
      && Feed(After(m, run, tuning), Up(up), tuning) == (ASLEEP, None)
    decreases |meanwhile|
  {
    var run := [OtherDown(other)] + meanwhile;
    var n := |run| - 1;
    if meanwhile == [] {
      assert run[..n] == [] && run == [OtherDown(other)];
    } else {
      PoisonedPressIsSilent(m, other, meanwhile[..n - 1], up, tuning);
      assert run[..n] == [OtherDown(other)] + meanwhile[..n - 1];
    }
  }

  // ------------------------------------------------- which inputs lead to which verdict

  /** The wake key is not released between `i` and `j`. */
  predicate NoUps(inputs: seq<Input>, i: nat, j: nat)
    requires j <= |inputs|
  {
    forall x :: i < x < j ==> !inputs[x].Up?
  }

  predicate NoOthers(inputs: seq<Input>, i: nat, j: nat)
    requires j <= |inputs|
  {
    forall x :: i < x < j ==> !inputs[x].OtherDown?
  }

  predicate NoDowns(inputs: seq<Input>, i: nat, j: nat)
    requires j <= |inputs|
  {
    forall x :: i < x < j ==> !inputs[x].Down?
  }

  /** The wake key went down at `k`, not having been down already, and is still down before `n`. */
  predicate Pressing(inputs: seq<Input>, k: nat, n: nat) {
    && k < n <= |inputs| && inputs[k].Down? && NoUps(inputs, k, n)
    && forall j :: 0 <= j < k && inputs[j].Down? ==> !NoUps(inputs, j, k)
  }

  /** The timer called at `d`, and the press at `k` had lasted for the threshold. */
  predicate HeldAt(inputs: seq<Input>, k: nat, d: nat, tuning: Tuning)
    requires k < |inputs| && d < |inputs|
  {
    inputs[d].Deadline? && inputs[k].Down? && inputs[d].now - inputs[k].now >= tuning.holdThreshold
  }

  predicate NeverHeld(inputs: seq<Input>, k: nat, n: nat, tuning: Tuning)
    requires k < |inputs| && n <= |inputs|
  {
    forall d :: k < d < n ==> !HeldAt(inputs, k, d, tuning)
  }

  /** The timer did not call once the window after the release at `u` was over. */
  predicate NeverOver(inputs: seq<Input>, u: nat, n: nat, tuning: Tuning)
    requires u < |inputs| && n <= |inputs|
  {
    forall d :: u < d < n && inputs[d].Deadline? ==> inputs[d].now < inputs[u].now + tuning.doubleTapWindow
  }

  /** One clean tap waits for a second: pressed at `k` asleep and not as a second tap itself, released at
      `u` before the threshold, and no key down and no end of the window since. */
  ghost predicate Waiting(inputs: seq<Input>, k: nat, u: nat, n: nat, tuning: Tuning)
    decreases n, 0
  {
    && k < u < n <= |inputs| && Pressing(inputs, k, u) && inputs[u].Up?
    && !inputs[k].engaged && !Wakes(inputs, k, tuning) && NeverHeld(inputs, k, u, tuning)
    && NoOthers(inputs, k, n) && NoDowns(inputs, u, n) && NeverOver(inputs, u, n, tuning)
  }

  /** The press at `k` is the second tap: while still asleep, inside the window of a tap that waits. */
  ghost predicate Wakes(inputs: seq<Input>, k: nat, tuning: Tuning)
    decreases k, 1
  {
    && k < |inputs| && inputs[k].Down? && !inputs[k].engaged
    && exists k0: nat, u: nat :: Waiting(inputs, k0, u, k, tuning)
                              && inputs[k].now <= inputs[u].now + tuning.doubleTapWindow
  }

  /** The press at `k`, made asleep and not as a second tap, became push-to-talk at `d`. */
  ghost predicate Talks(inputs: seq<Input>, k: nat, d: nat, n: nat, tuning: Tuning) {
    && k < d < n && Pressing(inputs, k, n) && !inputs[k].engaged && !Wakes(inputs, k, tuning)
    && NoOthers(inputs, k, d) && HeldAt(inputs, k, d, tuning) && NeverHeld(inputs, k, d, tuning)
  }

  ghost predicate Begins(inputs: seq<Input>, k: nat, d: nat, tuning: Tuning) {
    Talks(inputs, k, d, d + 1, tuning)
  }

  /** What the inputs before `n` say of the phase. */
  ghost predicate Explained(inputs: seq<Input>, n: nat, phase: Phase, tuning: Tuning) {
    match phase
    case FirstDown(at, poisoned, engaged) =>
      exists k: nat :: k < |inputs| && inputs[k] == Down(at, engaged) && Undecided(inputs, k, n, poisoned, tuning)
    case TapPending(expiresAt) =>
      exists k: nat, u: nat :: u < |inputs| && expiresAt == inputs[u].now + tuning.doubleTapWindow
                            && Waiting(inputs, k, u, n, tuning)
    case PushToTalk => exists k: nat, d: nat :: Talks(inputs, k, d, n, tuning)
    case ConsumedDown => exists k: nat :: Pressing(inputs, k, n) && Wakes(inputs, k, tuning)
    case Idle =>
      && n <= |inputs| && (forall k: nat :: !Pressing(inputs, k, n))
      && forall k: nat, u: nat :: !Waiting(inputs, k, u, n, tuning)
  }

  /** The press at `k` has led to nothing yet. */
  ghost predicate Undecided(inputs: seq<Input>, k: nat, n: nat, poisoned: bool, tuning: Tuning) {
    && Pressing(inputs, k, n) && !Wakes(inputs, k, tuning) && (poisoned <==> !NoOthers(inputs, k, n))
    && (inputs[k].engaged || forall d :: k < d < n && NoOthers(inputs, k, d) ==> !HeldAt(inputs, k, d, tuning))
  }

  /** There is only one press in progress, and none while a tap waits, of which there is only one. */
  lemma OnePress(inputs: seq<Input>, k: nat, k': nat, n: nat)
    ensures Pressing(inputs, k, n) && Pressing(inputs, k', n) ==> k == k'
  {
    assert Pressing(inputs, k, n) ==> forall j: nat :: k < j < n ==> NoUps(inputs, k, j);
    assert Pressing(inputs, k', n) ==> forall j: nat :: k' < j < n ==> NoUps(inputs, k', j);
  }

  lemma NoPressWhileWaiting(inputs: seq<Input>, k: nat, u: nat, p: nat, n: nat, tuning: Tuning)
    requires Waiting(inputs, k, u, n, tuning)
    ensures !Pressing(inputs, p, n)
  {
    if p < u {
      assert !NoUps(inputs, p, n);
    } else if u < p < n {
      assert !inputs[p].Down?;
    }
  }

  lemma OneTap(inputs: seq<Input>, k: nat, u: nat, k': nat, u': nat, n: nat, tuning: Tuning)
    requires Waiting(inputs, k, u, n, tuning)
    ensures Waiting(inputs, k', u', n, tuning) ==> k' == k && u' == u
  {
    hide Wakes;
    if u < u' < n {
      if k' < u {
        assert !NoUps(inputs, k', u');
      } else if u < k' < n {
        assert !inputs[k'].Down?;
      }
    } else if u' < u {
      if k < u' {
        assert !inputs[u'].Up?;
      } else if u' < k {
        assert !NoDowns(inputs, u', n);
      }
    } else if u' == u {
      OnePress(inputs, k, k', u);
    }
  }

  lemma PressExists(inputs: seq<Input>, j: nat, n: nat) returns (k: nat)
    requires j < n <= |inputs| && inputs[j].Down? && NoUps(inputs, j, n)
    ensures Pressing(inputs, k, n)
    decreases j
  {
    if i :| 0 <= i < j && inputs[i].Down? && NoUps(inputs, i, j) {
      assert NoUps(inputs, i, n);
      k := PressExists(inputs, i, n);
    } else {
      k := j;
    }
  }

  /** A press goes on until the release; a new one begins with the key going down. */
  lemma PressingGrows(inputs: seq<Input>, k: nat, n: nat)
    requires n < |inputs|
    ensures k != n ==> (Pressing(inputs, k, n + 1) <==> Pressing(inputs, k, n) && !inputs[n].Up?)
    ensures Pressing(inputs, n, n + 1) <==> inputs[n].Down? && forall p: nat :: !Pressing(inputs, p, n)
  {
    if k < n && Pressing(inputs, k, n) && !inputs[n].Up? { assert Pressing(inputs, k, n + 1); }
    if k < n && Pressing(inputs, k, n + 1) { assert Pressing(inputs, k, n) && !inputs[n].Up?; }
    if Pressing(inputs, n, n + 1) {
      forall p: nat
        ensures !Pressing(inputs, p, n)
      {
        assert p < n && inputs[p].Down? ==> !NoUps(inputs, p, n);
      }
    } else if inputs[n].Down? {
      var j :| 0 <= j < n && inputs[j].Down? && NoUps(inputs, j, n);
      var p := PressExists(inputs, j, n);
    }
  }

  /** A tap begins to wait with the release, and waits until a key goes down or the window is over. */
  lemma WaitingGrows(inputs: seq<Input>, k: nat, u: nat, n: nat, tuning: Tuning)
    requires n < |inputs|
    ensures u != n ==>
      (Waiting(inputs, k, u, n + 1, tuning) <==>
         && Waiting(inputs, k, u, n, tuning) && !inputs[n].Down? && !inputs[n].OtherDown?
         && (inputs[n].Deadline? ==> inputs[n].now < inputs[u].now + tuning.doubleTapWindow))
    ensures Waiting(inputs, k, n, n + 1, tuning) <==>
      && Pressing(inputs, k, n) && inputs[n].Up? && !inputs[k].engaged && !Wakes(inputs, k, tuning)
      && NeverHeld(inputs, k, n, tuning) && NoOthers(inputs, k, n)
  {
    hide Wakes;
  }

  ghost predicate Resting(inputs: seq<Input>, n: nat, tuning: Tuning) {
    && (forall k: nat :: !Pressing(inputs, k, n))
    && forall k: nat, u: nat :: !Waiting(inputs, k, u, n, tuning)
  }

  /** The release of a press that leaves no tap waiting brings the machine to rest. */
  lemma ReleaseRests(inputs: seq<Input>, k: nat, n: nat, tuning: Tuning)
    requires n < |inputs| && Pressing(inputs, k, n) && inputs[n].Up?
    requires !Waiting(inputs, k, n, n + 1, tuning)
    ensures Resting(inputs, n + 1, tuning)
  {
    hide Waiting, Pressing;
    var next := n + 1;
    forall p: nat
      ensures !Pressing(inputs, p, next)
    {
      PressingGrows(inputs, p, n);
    }
    forall p: nat, u: nat
      ensures !Waiting(inputs, p, u, next, tuning)
    {
      WaitingGrows(inputs, p, u, n, tuning);
      if u == n && Pressing(inputs, p, n) {
        OnePress(inputs, k, p, n);
      } else if Waiting(inputs, p, u, n, tuning) {
        NoPressWhileWaiting(inputs, p, u, k, n, tuning);
      }
    }
  }

  lemma NotASecondTap(inputs: seq<Input>, n: nat, tuning: Tuning)
    requires forall k: nat, u: nat :: !Waiting(inputs, k, u, n, tuning)
    ensures !Wakes(inputs, n, tuning)
  {
    hide Waiting;
  }

  lemma IdleStep(inputs: seq<Input>, n: nat, tuning: Tuning)
    requires n < |inputs| && Resting(inputs, n, tuning)
    ensures if inputs[n].Down? then Undecided(inputs, n, n + 1, false, tuning) else Resting(inputs, n + 1, tuning)
  {
    hide Waiting, Pressing;
    PressingGrows(inputs, n, n);
    if inputs[n].Down? {
      NotASecondTap(inputs, n, tuning);
    } else {
      var next := n + 1;
      forall p: nat
        ensures !Pressing(inputs, p, next)
      {
        PressingGrows(inputs, p, n);
      }
      forall p: nat, u: nat
        ensures !Waiting(inputs, p, u, next, tuning)
      {
        WaitingGrows(inputs, p, u, n, tuning);
      }
    }
  }

  lemma FirstTap(inputs: seq<Input>, n: nat, tuning: Tuning) returns (k: nat, u: nat)
    requires Wakes(inputs, n, tuning)
    ensures u < n < |inputs| && inputs[n].Down? && !inputs[n].engaged && Waiting(inputs, k, u, n, tuning)
    ensures inputs[n].now <= inputs[u].now + tuning.doubleTapWindow
  {
    k, u :| Waiting(inputs, k, u, n, tuning) && inputs[n].now <= inputs[u].now + tuning.doubleTapWindow;
  }

  /** A press that comes too late, or while engaged, is no second tap. */
  lemma LatePressIsFresh(inputs: seq<Input>, k: nat, u: nat, n: nat, tuning: Tuning)
    requires n < |inputs| && u < n && Waiting(inputs, k, u, n, tuning)
    ensures Wakes(inputs, n, tuning) ==>
              && inputs[n].Down? && !inputs[n].engaged
              && inputs[n].now <= inputs[u].now + tuning.doubleTapWindow
  {
    hide Waiting;
    if Wakes(inputs, n, tuning) {
      var k0, u0 := FirstTap(inputs, n, tuning);
      OneTap(inputs, k, u, k0, u0, n, tuning);
    }
  }

  lemma WaitingStep(inputs: seq<Input>, k: nat, u: nat, n: nat, tuning: Tuning)
    requires n < |inputs| && Waiting(inputs, k, u, n, tuning)
    ensures var expiresAt := inputs[u].now + tuning.doubleTapWindow;
      match inputs[n]
      case Down(now, engaged) =>
        if now <= expiresAt && !engaged then Pressing(inputs, n, n + 1) && Wakes(inputs, n, tuning)
        else Undecided(inputs, n, n + 1, false, tuning)
      case Up(_) => Waiting(inputs, k, u, n + 1, tuning)
      case OtherDown(_) => Resting(inputs, n + 1, tuning)
      case Deadline(now) =>
        if now < expiresAt then Waiting(inputs, k, u, n + 1, tuning) else Resting(inputs, n + 1, tuning)
  {
    assert u < n;
    hide Waiting, Pressing;
    forall p: nat
      ensures !Pressing(inputs, p, n)
    {
      NoPressWhileWaiting(inputs, k, u, p, n, tuning);
    }
    PressingGrows(inputs, n, n);
    WaitingGrows(inputs, k, u, n, tuning);
    LatePressIsFresh(inputs, k, u, n, tuning);
    forall k': nat, u': nat
      ensures Waiting(inputs, k', u', n, tuning) ==> k' == k && u' == u
    {
      OneTap(inputs, k, u, k', u', n, tuning);
    }
    var next := n + 1;
    forall p: nat
      ensures !inputs[n].Down? ==> !Pressing(inputs, p, next)
    {
      PressingGrows(inputs, p, n);
    }
    forall k': nat, u': nat
      ensures Waiting(inputs, k', u', next, tuning) ==> Waiting(inputs, k, u, next, tuning)
    {
      WaitingGrows(inputs, k', u', n, tuning);
    }
  }

  lemma PressStep(inputs: seq<Input>, k: nat, n: nat, poisoned: bool, tuning: Tuning)
    requires n < |inputs| && Undecided(inputs, k, n, poisoned, tuning)
    ensures k < n && inputs[k].Down?
    ensures match inputs[n]
      case Down(_, _) => Undecided(inputs, k, n + 1, poisoned, tuning)
      case Up(_) =>
        if poisoned || inputs[k].engaged then Resting(inputs, n + 1, tuning) else Waiting(inputs, k, n, n + 1, tuning)
      case OtherDown(_) => Undecided(inputs, k, n + 1, true, tuning)
      case Deadline(now) =>
        if poisoned || inputs[k].engaged || now - inputs[k].now < tuning.holdThreshold
        then Undecided(inputs, k, n + 1, poisoned, tuning)
        else Talks(inputs, k, n, n + 1, tuning)
  {
    hide Waiting, Wakes;
    PressingGrows(inputs, k, n);
    WaitingGrows(inputs, k, n, n, tuning);
    if inputs[n].Up? {
      if poisoned || inputs[k].engaged { ReleaseRests(inputs, k, n, tuning); }
    }
  }

  lemma TalkStep(inputs: seq<Input>, k: nat, d: nat, n: nat, tuning: Tuning)
    requires n < |inputs| && Talks(inputs, k, d, n, tuning)
    ensures if inputs[n].Up? then Resting(inputs, n + 1, tuning) else Talks(inputs, k, d, n + 1, tuning)
  {
    hide Waiting, Wakes;
    PressingGrows(inputs, k, n);
    WaitingGrows(inputs, k, n, n, tuning);
    if inputs[n].Up? { ReleaseRests(inputs, k, n, tuning); }
  }

  lemma ConsumedStep(inputs: seq<Input>, k: nat, n: nat, tuning: Tuning)
    requires n < |inputs| && Pressing(inputs, k, n) && Wakes(inputs, k, tuning)
    ensures if inputs[n].Up? then Resting(inputs, n + 1, tuning) else Pressing(inputs, k, n + 1)
  {
    hide Waiting, Wakes;
    PressingGrows(inputs, k, n);
    WaitingGrows(inputs, k, n, n, tuning);
    if inputs[n].Up? { ReleaseRests(inputs, k, n, tuning); }
  }

  lemma ExplanationGrows(inputs: seq<Input>, n: nat, m: Machine, tuning: Tuning)
    requires n < |inputs| && Explained(inputs, n, m.phase, tuning)
    ensures Explained(inputs, n + 1, Feed(m, inputs[n], tuning).0.phase, tuning)
  {
    hide Waiting, Wakes, Pressing, Talks, Undecided;
    if inputs[n].Down? { KeyDownUnfolds(m, inputs[n].now, inputs[n].engaged, tuning); }
    match m.phase
    case Idle =>
      IdleStep(inputs, n, tuning);
    case FirstDown(at, poisoned, engaged) =>
      var k: nat :| k < |inputs| && inputs[k] == Down(at, engaged) && Undecided(inputs, k, n, poisoned, tuning);
      PressStep(inputs, k, n, poisoned, tuning);
    case TapPending(expiresAt) =>
      var k: nat, u: nat :| u < |inputs| && expiresAt == inputs[u].now + tuning.doubleTapWindow
                            && Waiting(inputs, k, u, n, tuning);
      WaitingStep(inputs, k, u, n, tuning);
    case PushToTalk =>
      var k: nat, d: nat :| Talks(inputs, k, d, n, tuning);
      TalkStep(inputs, k, d, n, tuning);
    case ConsumedDown =>
      var k: nat :| Pressing(inputs, k, n) && Wakes(inputs, k, tuning);
      ConsumedStep(inputs, k, n, tuning);
  }

  lemma {:induction false} PhaseIsExplained(inputs: seq<Input>, n: nat, tuning: Tuning)
    requires n <= |inputs|
    ensures Explained(inputs, n, After(ASLEEP, inputs[..n], tuning).phase, tuning)
    decreases n
  {
    if n > 0 {
      PhaseIsExplained(inputs, n - 1, tuning);
      assert inputs[..n][..n - 1] == inputs[..n - 1];
      ExplanationGrows(inputs, n - 1, After(ASLEEP, inputs[..n - 1], tuning), tuning);
    }
  }

  /** The inputs explain only one phase. */
  lemma OnePhase(inputs: seq<Input>, n: nat, phase: Phase, phase': Phase, tuning: Tuning)
    requires Explained(inputs, n, phase, tuning) && Explained(inputs, n, phase', tuning)
    ensures phase == phase'
  {
  }

  /** The inputs that call for a verdict at `n`. Hands-free: the second tap. Push-to-talk: the timer
      calls for the first time after the press has lasted for the threshold, with no other key down, the
      press having begun asleep and not as a second tap. Its end: the release of such a press. A tap while
      engaged: the release of a press made while engaged, with no other key down. */
  ghost predicate Earned(inputs: seq<Input>, n: nat, verdict: Verdict, tuning: Tuning)
    requires n < |inputs|
  {
    match verdict
    case EngageHandsFree => Wakes(inputs, n, tuning)
    case BeginPushToTalk => exists k: nat :: Begins(inputs, k, n, tuning)
    case EndPushToTalk => inputs[n].Up? && exists k: nat, d: nat :: Talks(inputs, k, d, n, tuning)
    case TapWhileEngaged =>
      inputs[n].Up? && exists k: nat :: Pressing(inputs, k, n) && inputs[k].engaged && NoOthers(inputs, k, n)
  }

  /** For every sequence of inputs and every place in it: a verdict is answered there if and only if the
      inputs call for it. */
  lemma VerdictsAreExact(inputs: seq<Input>, n: nat, verdict: Verdict, tuning: Tuning)
    requires n < |inputs|
    ensures Answers(ASLEEP, inputs, tuning)[n] == Some(verdict) <==> Earned(inputs, n, verdict, tuning)
  {
    hide Waiting, Wakes, Pressing, Talks, Undecided, Earned, After, Answers, Explained, Feed;
    AnswerAt(inputs, n, tuning);
    PhaseIsExplained(inputs, n, tuning);
    var m := After(ASLEEP, inputs[..n], tuning);
    if Feed(m, inputs[n], tuning).1 == Some(verdict) {
      AnswerIsEarned(inputs, n, m, tuning);
    }
    if Earned(inputs, n, verdict, tuning) {
      EarnedIsAnswered(inputs, n, m, verdict, tuning);
    }
  }

  lemma {:induction false} AnswerAt(inputs: seq<Input>, n: nat, tuning: Tuning)
    requires n < |inputs|
    ensures Answers(ASLEEP, inputs, tuning)[n] == Feed(After(ASLEEP, inputs[..n], tuning), inputs[n], tuning).1
    decreases |inputs|
  {
    hide Feed, After;
    if n < |inputs| - 1 {
      AnswerAt(inputs[..|inputs| - 1], n, tuning);
      assert inputs[..|inputs| - 1][..n] == inputs[..n];
    }
  }

  lemma AnswerIsEarned(inputs: seq<Input>, n: nat, m: Machine, tuning: Tuning)
    requires n < |inputs| && Explained(inputs, n, m.phase, tuning) && Feed(m, inputs[n], tuning).1.Some?
    ensures Earned(inputs, n, Feed(m, inputs[n], tuning).1.value, tuning)
  {
    hide Waiting, Wakes, Talks;
    if inputs[n].Down? { KeyDownUnfolds(m, inputs[n].now, inputs[n].engaged, tuning); }
    match m.phase
    case FirstDown(at, poisoned, engaged) =>
      var k: nat :| k < |inputs| && inputs[k] == Down(at, engaged) && Undecided(inputs, k, n, poisoned, tuning);
      PressStep(inputs, k, n, poisoned, tuning);
      assert inputs[n].Deadline? ==> Begins(inputs, k, n, tuning);
    case TapPending(expiresAt) =>
      var k: nat, u: nat :| u < |inputs| && expiresAt == inputs[u].now + tuning.doubleTapWindow
                            && Waiting(inputs, k, u, n, tuning);
      WaitingStep(inputs, k, u, n, tuning);
    case _ =>
  }

  lemma EarnedIsAnswered(inputs: seq<Input>, n: nat, m: Machine, verdict: Verdict, tuning: Tuning)
    requires n < |inputs| && Explained(inputs, n, m.phase, tuning) && Earned(inputs, n, verdict, tuning)
    ensures Feed(m, inputs[n], tuning).1 == Some(verdict)
  {
    match verdict
    case EngageHandsFree => SecondTapExplains(inputs, n, m, tuning);
    case BeginPushToTalk => HeldPressExplains(inputs, n, m, tuning);
    case EndPushToTalk =>
      OnePhase(inputs, n, m.phase, PushToTalk, tuning);
    case TapWhileEngaged =>
      var k: nat :| Pressing(inputs, k, n) && inputs[k].engaged && NoOthers(inputs, k, n);
      assert Undecided(inputs, k, n, false, tuning);
      OnePhase(inputs, n, m.phase, FirstDown(inputs[k].now, false, true), tuning);
  }

  lemma SecondTapExplains(inputs: seq<Input>, n: nat, m: Machine, tuning: Tuning)
    requires n < |inputs| && Explained(inputs, n, m.phase, tuning) && Wakes(inputs, n, tuning)
    ensures Feed(m, inputs[n], tuning).1 == Some(EngageHandsFree)
  {
    var k, u := FirstTap(inputs, n, tuning);
    OnePhase(inputs, n, m.phase, TapPending(inputs[u].now + tuning.doubleTapWindow), tuning);
  }

  lemma HeldPressExplains(inputs: seq<Input>, n: nat, m: Machine, tuning: Tuning)
    requires n < |inputs| && Explained(inputs, n, m.phase, tuning) && exists k: nat :: Begins(inputs, k, n, tuning)
    ensures Feed(m, inputs[n], tuning).1 == Some(BeginPushToTalk)
  {
    hide Waiting, Wakes;
    var k: nat :| Begins(inputs, k, n, tuning);
    PressingGrows(inputs, k, n);
    assert Undecided(inputs, k, n, false, tuning);
    OnePhase(inputs, n, m.phase, FirstDown(inputs[k].now, false, false), tuning);
  }

  /** Conversely, from rest, a press released before the hold threshold and pressed again inside the
      window wakes the microphone, whatever timers fire in between. */
  lemma DoubleTapWakes(start: seq<Input>, down: real, held: seq<Input>, up: real, pause: seq<Input>, again: real,
                       tuning: Tuning)
    requires After(ASLEEP, start, tuning).phase == Idle
    requires forall i :: 0 <= i < |held| ==>
               held[i].Down? || (held[i].Deadline? && held[i].now - down < tuning.holdThreshold)
    requires forall i :: 0 <= i < |pause| ==>
               pause[i].Up? || (pause[i].Deadline? && pause[i].now < up + tuning.doubleTapWindow)
    requires again <= up + tuning.doubleTapWindow
    ensures var m := After(ASLEEP, start + [Down(down, false)] + held + [Up(up)] + pause, tuning);
      Feed(m, Down(again, false), tuning) == (Machine(ConsumedDown, None), Some(EngageHandsFree))
  {
    hide After, Feed;
    var m := Machine(TapPending(up + tuning.doubleTapWindow), Some(up + tuning.doubleTapWindow));
    var s := start + [Down(down, false)] + held + [Up(up)];
    TapIsPending(start, down, held, up, tuning);
    AfterConcat(ASLEEP, s, pause, tuning);
    StaysPending(m, pause, tuning);
    SecondPressWakes(m, again, tuning);
  }

  lemma TapIsPending(start: seq<Input>, down: real, held: seq<Input>, up: real, tuning: Tuning)
    requires After(ASLEEP, start, tuning).phase == Idle
    requires forall i :: 0 <= i < |held| ==>
               held[i].Down? || (held[i].Deadline? && held[i].now - down < tuning.holdThreshold)
    ensures After(ASLEEP, start + [Down(down, false)] + held + [Up(up)], tuning)
            == Machine(TapPending(up + tuning.doubleTapWindow), Some(up + tuning.doubleTapWindow))
  {
    hide After;
    var m := Pressed(down, false, tuning);
    var s := start + [Down(down, false)];
    AfterOne(ASLEEP, start, Down(down, false), tuning);
    assert After(ASLEEP, s, tuning) == m;
    AfterConcat(ASLEEP, s, held, tuning);
    StaysPressed(m, held, tuning);
    AfterOne(ASLEEP, s + held, Up(up), tuning);
  }

  lemma SecondPressWakes(m: Machine, again: real, tuning: Tuning)
    requires m.phase.TapPending? && again <= m.phase.expiresAt
    ensures Feed(m, Down(again, false), tuning) == (Machine(ConsumedDown, None), Some(EngageHandsFree))
  {
  }

  lemma AfterOne(m: Machine, inputs: seq<Input>, input: Input, tuning: Tuning)
    ensures After(m, inputs + [input], tuning) == Feed(After(m, inputs, tuning), input, tuning).0
  {
    assert (inputs + [input])[..|inputs|] == inputs;
  }

  lemma {:induction false} AfterConcat(m: Machine, a: seq<Input>, b: seq<Input>, tuning: Tuning)
    ensures After(m, a + b, tuning) == After(After(m, a, tuning), b, tuning)
    decreases |b|
  {
    if b == [] {
      assert a + b == a;
    } else {
      var n := |b| - 1;
      AfterConcat(m, a, b[..n], tuning);
      AfterOne(m, a + b[..n], b[n], tuning);
      assert a + b == a + b[..n] + [b[n]];
    }
  }

  lemma {:induction false} StaysPressed(m: Machine, held: seq<Input>, tuning: Tuning)
    requires m.phase.FirstDown? && !m.phase.poisoned && !m.phase.engagedAtPress
    requires forall i :: 0 <= i < |held| ==>
               held[i].Down? || (held[i].Deadline? && held[i].now - m.phase.at < tuning.holdThreshold)
    ensures After(m, held, tuning) == m
  {
    if held != [] { StaysPressed(m, held[..|held| - 1], tuning); }
  }

  lemma {:induction false} StaysPending(m: Machine, pause: seq<Input>, tuning: Tuning)
    requires m.phase.TapPending?
    requires forall i :: 0 <= i < |pause| ==>
               pause[i].Up? || (pause[i].Deadline? && pause[i].now < m.phase.expiresAt)
    ensures After(m, pause, tuning) == m
  {
    if pause != [] { StaysPending(m, pause[..|pause| - 1], tuning); }
  }

  // ------------------------------------------------------------- the machine as an object

  /** `ActivationGestureMachine`. */
  class ActivationGestureMachine {
    const tuning: Tuning
    var phase: Phase
    var pendingDeadline: Option<real>

    function Value(): Machine
      reads this
    {
      Machine(phase, pendingDeadline)
    }

    constructor (tuning: Tuning)
      ensures Value() == ASLEEP && this.tuning == tuning
    {
      this.tuning := tuning;
      phase, pendingDeadline := Idle, None;
    }

    method PressKey(now: real, engaged: bool) returns (verdict: Option<Verdict>)
      modifies this
      ensures (Value(), verdict) == KeyDown(old(Value()), now, engaged, tuning)
      decreases phase.TapPending?
    {
      match phase
      case Idle =>
        phase := FirstDown(now, false, engaged);
        pendingDeadline := if engaged then None else Some(now + tuning.holdThreshold);
        verdict := None;
      case TapPending(expiresAt) =>
        pendingDeadline := None;
        if now <= expiresAt && !engaged {
          phase := ConsumedDown;
          return Some(EngageHandsFree);
        }
        phase := Idle;
        verdict := PressKey(now, engaged);
      case _ => verdict := None;
    }

    method ReleaseKey(now: real) returns (verdict: Option<Verdict>)
      modifies this
      ensures (Value(), verdict) == KeyUp(old(Value()), now, tuning)
    {
      verdict := None;
      match phase
      case FirstDown(_, poisoned, engagedAtPress) =>
        phase, pendingDeadline := Idle, None;
        if poisoned {
          return None;
        }
        if engagedAtPress {
          return Some(TapWhileEngaged);
        }
        phase := TapPending(now + tuning.doubleTapWindow);
        pendingDeadline := Some(now + tuning.doubleTapWindow);
      case PushToTalk =>
        phase, pendingDeadline := Idle, None;
        verdict := Some(EndPushToTalk);
      case ConsumedDown => phase, pendingDeadline := Idle, None;
      case _ =>
    }

    method PressOtherKey()
      modifies this
      ensures Value() == OtherKeyDown(old(Value()))
    {
      match phase
      case FirstDown(at, _, engagedAtPress) =>
        phase, pendingDeadline := FirstDown(at, true, engagedAtPress), None;
      case TapPending(_) => phase, pendingDeadline := Idle, None;
      case _ =>
    }

    method ElapseDeadline(now: real) returns (verdict: Option<Verdict>)
      modifies this
      ensures (Value(), verdict) == DeadlineElapsed(old(Value()), now, tuning)
    {
      verdict := None;
      match phase
      case FirstDown(at, poisoned, engagedAtPress) =>
        if poisoned || engagedAtPress || now - at < tuning.holdThreshold {
          return None;
        }
        phase, pendingDeadline := PushToTalk, None;
        verdict := Some(BeginPushToTalk);
      case TapPending(expiresAt) =>
        if now >= expiresAt {
          phase, pendingDeadline := Idle, None;
        }
      case _ =>
    }
  }
}
