/** The renewal supervisor of executeWithCoordinator: the goroutine that runs the action and
    finalises the claim, and the goroutine that renews the lease meanwhile.

    Both run between an acquired claim and the return of executeWithCoordinator. They share the
    flag `stopped` under a mutex, the channels `stop` and `done`, and the one-slot error channel.
    A step is one synchronisation operation or one call into the coordinator or the action. */
module Supervisor {

  datatype Thread = MainThread | RenewThread

  datatype Mutex = Free | HeldBy(who: Thread)

  /** Where the executing goroutine stands. The four Stop states are the body of stopRenewal. */
  datatype Main =
    | Executing
    | StopLock | StopMark | StopClose | StopWait
    | Checking        // select on the error channel
    | Marshalling
    | Completing      // calling coordinator.Complete
    | Deferred        // the deferred calls, innermost first
    | Releasing       // calling coordinator.Release
    | Returned

  datatype Renewer =
    | Selecting       // select on stop and ticker
    | Renewing        // calling RenewClaim
    | WantLock
    | Locked          // holding the mutex, about to test `stopped`
    | Cancelling      // error sent, about to cancel the action
    | Unlocking
    | Exiting         // about to close(done)
    | Gone

  datatype State = State(
    main: Main,
    renewer: Renewer,
    mutex: Mutex,
    stopped: bool,
    stopClosed: bool,
    doneClosed: bool,
    buffered: bool,          // the error channel holds an error
    recorded: bool,          // an error was ever sent
    cancelled: bool,         // the action's context
    execFailed: bool,
    panicking: bool,
    marshalFailed: bool,
    renewFailed: bool,       // a renewal was ever answered with an error
    completed: bool,
    completes: nat,          // calls of Complete
    releases: nat            // calls of Release
  )

  /** How the outside world answers a step. */
  datatype Answer = Fine | Fails | Panics | Ticks | Stops

  datatype Action = Action(who: Thread, answer: Answer)

  /** `renewable`: the coordinator can renew leases and the lease is positive, so that a renewal
      goroutine exists; otherwise stopRenewal does nothing and the error channel is nil. */
  function Start(renewable: bool): State {
    State(Executing, if renewable then Selecting else Gone, Free, false, false, false,
          false, false, false, false, false, false, false, false, 0, 0)
  }

  /** stopRenewal was called before (sync.Once) or there is nothing to stop. */
  predicate NothingToStop(s: State, renewable: bool) {
    !renewable || s.stopClosed
  }

  predicate MainEnabled(s: State, answer: Answer) {
    match s.main
    case StopLock => s.mutex.Free?
    case StopWait => s.doneClosed
    case Returned => false
    case _ => true
  }

  /** Where the executing goroutine goes when stopRenewal returns. */
  function AfterStop(panicking: bool): Main {
    if panicking then Deferred else Checking
  }

  function MainStep(s: State, answer: Answer, renewable: bool): State
    requires MainEnabled(s, answer)
  {
    match s.main
    case Executing =>
      s.(main := if NothingToStop(s, renewable) then AfterStop(answer.Panics?) else StopLock,
         execFailed := answer.Fails?, panicking := answer.Panics?)
    case StopLock => s.(main := StopMark, mutex := HeldBy(MainThread))
    case StopMark => s.(main := StopClose, stopped := true, mutex := Free)
    case StopClose => s.(main := StopWait, stopClosed := true)
    case StopWait => s.(main := AfterStop(s.panicking))
    case Checking =>     // receives the recorded error, if there is one
      s.(main := if s.buffered || s.execFailed then Deferred else Marshalling, buffered := false, cancelled := true)
    case Marshalling => s.(main := if answer.Fine? then Completing else Deferred, marshalFailed := !answer.Fine?)
    case Completing => s.(main := Deferred, completes := s.completes + 1, completed := answer.Fine?)
    case Deferred => s.(main := if s.completed then Returned else Releasing, cancelled := true)
    case Releasing => s.(main := Returned, releases := s.releases + 1)
  }

  predicate RenewerEnabled(s: State, answer: Answer) {
    match s.renewer
    case Selecting => answer.Ticks? || (answer.Stops? && s.stopClosed)
    case WantLock => s.mutex.Free?
    case Locked => s.stopped || !s.buffered      // the channel has one slot: a full one blocks
    case Gone => false
    case _ => true
  }

  function RenewerStep(s: State, answer: Answer): State
    requires RenewerEnabled(s, answer)
  {
    match s.renewer
    case Selecting => s.(renewer := if answer.Ticks? then Renewing else Exiting)
    case Renewing =>
      s.(renewer := if answer.Fails? then WantLock else Selecting, renewFailed := s.renewFailed || answer.Fails?)
    case WantLock => s.(renewer := Locked, mutex := HeldBy(RenewThread))
    case Locked =>
      if s.stopped then s.(renewer := Unlocking)
      else s.(renewer := Cancelling, buffered := true, recorded := true)
    case Cancelling => s.(renewer := Unlocking, cancelled := true)
    case Unlocking => s.(renewer := Exiting, mutex := Free)
    case Exiting => s.(renewer := Gone, doneClosed := true)
  }

  predicate Enabled(s: State, a: Action) {
    match a.who
    case MainThread => MainEnabled(s, a.answer)
    case RenewThread => RenewerEnabled(s, a.answer)
  }

  function Step(s: State, a: Action, renewable: bool): State
    requires Enabled(s, a)
  {
    match a.who
    case MainThread => MainStep(s, a.answer, renewable)
    case RenewThread => RenewerStep(s, a.answer)
  }

  ghost predicate Legal(s: State, run: seq<Action>, renewable: bool)
    decreases |run|
  {
    run == [] || (Enabled(s, run[0]) && Legal(Step(s, run[0], renewable), run[1..], renewable))
  }

  ghost function Run(s: State, run: seq<Action>, renewable: bool): State
    requires Legal(s, run, renewable)
    decreases |run|
  {
    if run == [] then s else Run(Step(s, run[0], renewable), run[1..], renewable)
  }

  // ---------------------------------------------------------------------------------------
  // Invariant

  predicate BeforeStop(s: State) {
    s.main.Executing? || s.main.StopLock? || s.main.StopMark? || s.main.StopClose?
  }

  predicate StopReturned(s: State) {
    !BeforeStop(s) && !s.main.StopWait?
  }

  predicate Sent(s: State) {
    s.renewer.Cancelling? || s.renewer.Unlocking? || s.renewer.Exiting? || s.renewer.Gone?
  }

  /** Something kept the action from having a result to publish. */
  predicate Spoilt(s: State) {
    s.execFailed || s.panicking || s.marshalFailed || s.recorded
  }

  predicate Finishing(s: State) {
    s.main.Deferred? || s.main.Releasing? || s.main.Returned?
  }

  /** How the executing goroutine's position depends on the action's result. */
  ghost predicate MainOk(s: State) {
    && (s.main.Executing? ==> !s.execFailed && !s.panicking)
    && (s.panicking ==> !s.main.Checking?)
    && (s.main.Marshalling? || s.main.Completing? ==> !Spoilt(s))
    && (!Finishing(s) ==> !s.marshalFailed)
    && (Finishing(s) ==> (s.completes == 1 <==> !Spoilt(s)))
    && (s.main.Releasing? || s.main.Returned? ==> s.cancelled)
  }

  /** The renewal goroutine goes on until it is stopped or a renewal has failed, and reports a failure
      unless it was stopped before. */
  ghost predicate RenewerOk(s: State, renewable: bool) {
    && (s.recorded ==> s.renewFailed)
    && (s.renewFailed && !s.recorded ==> s.renewer.WantLock? || s.renewer.Locked? || s.stopped)
    && (renewable && (s.renewer.Exiting? || s.renewer.Gone?) ==> s.stopClosed || s.renewFailed)
    && (s.renewFailed ==> !s.renewer.Selecting? && !s.renewer.Renewing?)
    && (s.renewer.WantLock? || s.renewer.Locked? || s.renewer.Cancelling? || s.renewer.Unlocking? ==> s.renewFailed)
  }

  ghost predicate Inv(s: State, renewable: bool) {
    && (s.stopped <==> renewable && (s.main.StopClose? || !BeforeStop(s)))
    && (s.stopClosed <==> renewable && !BeforeStop(s))
    && (!renewable ==> s.renewer.Gone? && !s.recorded && (s.main.Executing? || StopReturned(s)))
    && (renewable ==> (s.doneClosed <==> s.renewer.Gone?))
    && (StopReturned(s) ==> s.renewer.Gone?)
    && (s.mutex == HeldBy(MainThread) <==> s.main.StopMark?)
    && (s.mutex == HeldBy(RenewThread) <==> s.renewer.Locked? || s.renewer.Cancelling? || s.renewer.Unlocking?)
    && (s.renewer.Cancelling? ==> !s.stopped)
    && (s.recorded ==> Sent(s) && (s.renewer.Cancelling? || s.cancelled))
    && (s.buffered ==> s.recorded)
    && (s.recorded && !s.buffered ==> StopReturned(s) && !s.main.Checking?)
    && (s.main.Marshalling? || s.main.Completing? || s.completes > 0 ==> !s.recorded)
    && (s.recorded && s.main.Deferred? ==> !s.completed)
    && MainOk(s) && RenewerOk(s, renewable)
    && s.completes <= 1
    && (s.completes == 1 ==> s.main.Deferred? || s.main.Releasing? || s.main.Returned?)
    && (s.completed ==> s.completes == 1)
    && (s.main.Releasing? ==> !s.completed)
    && s.releases == (if s.main.Returned? && !s.completed then 1 else 0)
  }

  lemma StoppingInv(s: State, answer: Answer, renewable: bool)
    requires Inv(s, renewable) && MainEnabled(s, answer) && !StopReturned(s)
    ensures Inv(MainStep(s, answer, renewable), renewable)
  {
  }

  lemma PublishingInv(s: State, answer: Answer, renewable: bool)
    requires Inv(s, renewable) && (s.main.Checking? || s.main.Marshalling? || s.main.Completing?)
    ensures Inv(MainStep(s, answer, renewable), renewable)
  {
    match s.main {
      case Checking =>
      case Marshalling =>
      case Completing =>
    }
  }

  lemma FinishingInv(s: State, answer: Answer, renewable: bool)
    requires Inv(s, renewable) && (s.main.Deferred? || s.main.Releasing?)
    ensures Inv(MainStep(s, answer, renewable), renewable)
  {
    match s.main {
      case Deferred =>
      case Releasing =>
    }
  }

  lemma RenewerInv(s: State, answer: Answer, renewable: bool)
    requires Inv(s, renewable) && RenewerEnabled(s, answer)
    ensures Inv(RenewerStep(s, answer), renewable)
  {
    match s.renewer {
      case Selecting =>
      case Renewing =>
      case WantLock =>
      case Locked =>
      case Cancelling =>
      case Unlocking =>
      case Exiting =>
    }
  }

  lemma StepInv(s: State, a: Action, renewable: bool)
    requires Inv(s, renewable) && Enabled(s, a)
    ensures Inv(Step(s, a, renewable), renewable)
  {
    if a.who.RenewThread? {
      RenewerInv(s, a.answer, renewable);
    } else if s.main.Deferred? || s.main.Releasing? {
      FinishingInv(s, a.answer, renewable);
    } else if StopReturned(s) {
      PublishingInv(s, a.answer, renewable);
    } else {
      StoppingInv(s, a.answer, renewable);
    }
  }

  lemma {:induction false} RunInv(s: State, run: seq<Action>, renewable: bool)
    requires Inv(s, renewable) && Legal(s, run, renewable)
    ensures Inv(Run(s, run, renewable), renewable)
    decreases |run|
  {
    if run != [] {
      StepInv(s, run[0], renewable);
      RunInv(Step(s, run[0], renewable), run[1..], renewable);
    }
  }

  // ---------------------------------------------------------------------------------------
  // Theorems

  /** In every interleaving: the error send never blocks, Complete is called at most once and only
      when no renewal failure was recorded, and when executeWithCoordinator returns the claim was
      finalised by exactly one of a successful Complete and a single Release attempt. */
  lemma Supervised(run: seq<Action>, renewable: bool)
    requires Legal(Start(renewable), run, renewable)
    ensures
      var s := Run(Start(renewable), run, renewable);
      && (s.renewer.Locked? && !s.stopped ==> !s.buffered)
      && (s.main.Completing? || s.completes > 0 ==> !s.recorded)
      && s.completes <= 1 && s.releases <= 1
      && (s.main.Returned? ==> (s.completed && s.completes == 1) != (s.releases == 1))
      && (s.releases == 1 ==> !s.completed)
  {
    RunInv(Start(renewable), run, renewable);
  }

  /** In every interleaving Complete is called if and only if there is a result to publish: when
      executeWithCoordinator has returned, it was called exactly once if the action returned without
      error and without panic, its result could be marshalled and no renewal failure was recorded, and
      never otherwise, in which case the claim was released. The action's context is cancelled. */
  lemma CompleteIffResult(run: seq<Action>, renewable: bool)
    requires Legal(Start(renewable), run, renewable)
    ensures
      var s := Run(Start(renewable), run, renewable);
      && (Spoilt(s) ==> s.completes == 0 && !s.completed)
      && (s.main.Returned? ==> s.cancelled && s.completes == (if Spoilt(s) then 0 else 1))
      && (s.main.Returned? && Spoilt(s) ==> s.releases == 1)
  {
    RunInv(Start(renewable), run, renewable);
  }

  /** In every interleaving the lease is kept up: the renewal goroutine ends only after it was stopped or
      a renewal failed, a failed renewal is recorded unless the goroutine was stopped first, and nothing
      else is. */
  lemma RenewsUntilStopped(run: seq<Action>, renewable: bool)
    requires Legal(Start(renewable), run, renewable)
    ensures
      var s := Run(Start(renewable), run, renewable);
      && (renewable && s.renewer.Gone? ==> s.stopClosed || s.renewFailed)
      && (s.renewer.Gone? ==> (s.recorded ==> s.renewFailed) && (s.renewFailed ==> s.recorded || s.stopped))
  {
    RunInv(Start(renewable), run, renewable);
  }

  /** Once stopRenewal has returned, no renewal is running and none ever starts again. */
  lemma {:induction false} QuietAfterStop(s: State, run: seq<Action>, renewable: bool)
    requires Inv(s, renewable) && StopReturned(s) && Legal(s, run, renewable)
    ensures StopReturned(Run(s, run, renewable)) && Run(s, run, renewable).renewer == Gone
    decreases |run|
  {
    if run != [] {
      StepInv(s, run[0], renewable);
      QuietAfterStop(Step(s, run[0], renewable), run[1..], renewable);
    }
  }

  /** A recorded renewal failure cancels the action, keeps Complete from ever being called and
      ends in a Release attempt. */
  lemma {:induction false} FailureAborts(s: State, run: seq<Action>, renewable: bool)
    requires Inv(s, renewable) && s.recorded && Legal(s, run, renewable)
    ensures
      var s' := Run(s, run, renewable);
      && s'.recorded && s'.completes == 0 && !s'.completed
      && (s'.renewer.Cancelling? || s'.cancelled)
      && (s'.main.Returned? ==> s'.releases == 1)
    decreases |run|
  {
    if run != [] {
      StepInv(s, run[0], renewable);
      FailureAborts(Step(s, run[0], renewable), run[1..], renewable);
    }
  }

  /** No interleaving gets stuck: until executeWithCoordinator returns, some step is possible that
      needs no timer tick, unless the action itself is still to return. */
  lemma NeverStuck(s: State, renewable: bool)
    requires Inv(s, renewable) && !s.main.Returned?
    ensures Enabled(s, Action(MainThread, Fine)) || Enabled(s, Action(RenewThread, Stops))
  {
  }

  // ---------------------------------------------------------------------------------------
  // Termination

  /** Distance to the end of each goroutine. */
  function MainRank(m: Main): nat {
    if m.Executing? then 10 else if m.StopLock? then 9 else if m.StopMark? then 8
    else if m.StopClose? then 7 else if m.StopWait? then 6 else if m.Checking? then 5
    else if m.Marshalling? then 4 else if m.Completing? then 3 else if m.Deferred? then 2
    else if m.Releasing? then 1 else 0
  }

  function RenewerRank(r: Renewer): nat {
    if r.Renewing? then 7 else if r.Selecting? then 6 else if r.WantLock? then 5
    else if r.Locked? then 4 else if r.Cancelling? then 3 else if r.Unlocking? then 2
    else if r.Exiting? then 1 else 0
  }

  function Rank(s: State): nat {
    MainRank(s.main) + RenewerRank(s.renewer)
  }

  function Ticks(run: seq<Action>): nat {
    if run == [] then 0 else (if run[0] == Action(RenewThread, Answer.Ticks) then 1 else 0) + Ticks(run[1..])
  }

  /** The executing goroutine only moves forward through its program. */
  predicate Forward(m: Main, m': Main) {
    if m.Executing? then m'.StopLock? || m'.Checking? || m'.Deferred?
    else if m.StopWait? then m'.Checking? || m'.Deferred?
    else if m.Checking? then m'.Marshalling? || m'.Deferred?
    else if m.Marshalling? then m'.Completing? || m'.Deferred?
    else if m.Deferred? then m'.Releasing? || m'.Returned?
    else || (m.StopLock? && m'.StopMark?) || (m.StopMark? && m'.StopClose?) || (m.StopClose? && m'.StopWait?)
         || (m.Completing? && m'.Deferred?) || (m.Releasing? && m'.Returned?)
  }

  lemma MainForward(s: State, answer: Answer, renewable: bool)
    requires Inv(s, renewable) && MainEnabled(s, answer)
    ensures Forward(s.main, MainStep(s, answer, renewable).main)
    ensures MainStep(s, answer, renewable).renewer == s.renewer
  {
    match s.main {
      case Executing =>
      case StopLock =>
      case StopMark =>
      case StopClose =>
      case StopWait =>
      case Checking =>
      case Marshalling =>
      case Completing =>
      case Deferred =>
      case Releasing =>
    }
  }

  lemma ForwardRank(m: Main, m': Main)
    requires Forward(m, m')
    ensures MainRank(m') < MainRank(m)
  {
  }

  /** So does the renewal goroutine, except that a tick sends it back to a renewal. */
  predicate Onward(r: Renewer, r': Renewer) {
    || (r.Selecting? && r'.Exiting?) || (r.Renewing? && (r'.WantLock? || r'.Selecting?)) || (r.WantLock? && r'.Locked?)
    || (r.Locked? && (r'.Unlocking? || r'.Cancelling?)) || (r.Cancelling? && r'.Unlocking?)
    || (r.Unlocking? && r'.Exiting?) || (r.Exiting? && r'.Gone?)
  }

  lemma RenewerOnward(s: State, answer: Answer, renewable: bool)
    requires Inv(s, renewable) && RenewerEnabled(s, answer)
    ensures
      var r' := RenewerStep(s, answer).renewer;
      Onward(s.renewer, r') || (s.renewer.Selecting? && answer.Ticks? && r'.Renewing?)
    ensures RenewerStep(s, answer).main == s.main
  {
    match s.renewer {
      case Selecting =>
      case Renewing =>
      case WantLock =>
      case Locked =>
      case Cancelling =>
      case Unlocking =>
      case Exiting =>
    }
  }

  lemma OnwardRank(r: Renewer, r': Renewer)
    requires Onward(r, r')
    ensures RenewerRank(r') < RenewerRank(r)
  {
  }

  /** Every run is finite apart from renewals: it has at most 16 steps plus two per timer tick. */
  lemma {:induction false} Terminates(s: State, run: seq<Action>, renewable: bool)
    requires Inv(s, renewable) && Legal(s, run, renewable)
    ensures |run| + Rank(Run(s, run, renewable)) <= Rank(s) + 2 * Ticks(run)
    decreases |run|
  {
    if run != [] {
      StepInv(s, run[0], renewable);
      StepRank(s, run[0], renewable);
      Terminates(Step(s, run[0], renewable), run[1..], renewable);
    }
  }

  lemma StepRank(s: State, a: Action, renewable: bool)
    requires Inv(s, renewable) && Enabled(s, a)
    ensures Rank(Step(s, a, renewable)) < Rank(s) + 2 * Ticks([a])
  {
    if a.who.MainThread? {
      MainForward(s, a.answer, renewable);
      ForwardRank(s.main, MainStep(s, a.answer, renewable).main);
    } else {
      RenewerOnward(s, a.answer, renewable);
      var r' := RenewerStep(s, a.answer).renewer;
      if Onward(s.renewer, r') {
        OnwardRank(s.renewer, r');
      }
    }
  }
}
