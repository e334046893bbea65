/** Workers on the ledger: every worker that acquired a claim runs the two goroutines of
    executeWithCoordinator, and it is these that call RenewClaim, Complete and Release.

    The ledger and one supervisor per token step side by side. A goroutine that stands at a call site
    makes one call there and moves on when the call has returned, with the answer it returned. */
module WorkerProgram {
  import opened Options
  import opened Ledger
  import opened LedgerInvariant
  import opened LedgerTheorems
  import opened LedgerLease
  import S = Supervisor

  /** The calls that the worker's two goroutines are waiting for. */
  datatype Worker = Worker(renewable: bool, sup: S.State, renewCall: Option<nat>, mainCall: Option<nat>)

  datatype System = System(world: World, workers: map<Token, Worker>)

  datatype Move =
    | Outside(a: Action)                     // the clock, Claim calls, steps inside calls, cancellation
    | Begin(t: Token, renewable: bool)       // a worker takes up the claim it acquired
    | Call(t: Token, id: nat, op: Op)
    | Go(t: Token, step: S.Action)

  predicate AtRenewSite(k: Worker) {
    k.sup.renewer.Renewing?
  }

  predicate AtMainSite(k: Worker) {
    k.sup.main.Completing? || k.sup.main.Releasing?
  }

  /** The call has returned, and the goroutine is told so. */
  predicate Returned(ops: map<nat, Op>, call: Option<nat>, answer: S.Answer) {
    && call.Some? && call.value in ops && ops[call.value].Done?
    && (answer.Fine? <==> ops[call.value].outcome.Succeeded?) && (answer.Fails? <==> !ops[call.value].outcome.Succeeded?)
  }

  predicate MayCall(k: Worker, op: Op) {
    || (op.RenewGet? && AtRenewSite(k) && k.renewCall.None?)
    || (op.CompleteStart? && k.sup.main.Completing? && k.mainCall.None?)
    || (op.ReleaseGet? && k.sup.main.Releasing? && k.mainCall.None?)
  }

  predicate Allowed(sys: System, m: Move) {
    match m
    case Outside(a) => Enabled(sys.world, a) && (a.Spawn? ==> a.op.Lookup?)
    case Begin(t, _) => t in sys.world.bucket.handed && t !in sys.workers
    case Call(t, id, op) =>
      t in sys.workers && Enabled(sys.world, Spawn(id, op)) && Owner(op) && op.token == t && MayCall(sys.workers[t], op)
    case Go(t, step) =>
      && t in sys.workers && S.Enabled(sys.workers[t].sup, step)
      && (step.who.RenewThread? && AtRenewSite(sys.workers[t]) ==>
            Returned(sys.world.ops, sys.workers[t].renewCall, step.answer))
      && (step.who.MainThread? && AtMainSite(sys.workers[t]) ==>
            Returned(sys.world.ops, sys.workers[t].mainCall, step.answer))
  }

  function Gone(k: Worker, step: S.Action): Worker
    requires S.Enabled(k.sup, step)
  {
    var sup := S.Step(k.sup, step, k.renewable);
    if step.who.RenewThread? then k.(sup := sup, renewCall := None) else k.(sup := sup, mainCall := None)
  }

  function Called(k: Worker, id: nat, op: Op): Worker {
    if op.RenewGet? then k.(renewCall := Some(id)) else k.(mainCall := Some(id))
  }

  /** What a move does to the ledger. */
  function OnLedger(m: Move): seq<Action> {
    match m
    case Outside(a) => [a]
    case Call(_, id, op) => [Spawn(id, op)]
    case Begin(_, _) => []
    case Go(_, _) => []
  }

  function Next(sys: System, m: Move): System
    requires Allowed(sys, m)
  {
    match m
    case Outside(a) => sys.(world := Step(sys.world, a))
    case Begin(t, renewable) =>
      sys.(workers := sys.workers[t := Worker(renewable, S.Start(renewable), None, None)])
    case Call(t, id, op) =>
      System(Step(sys.world, Spawn(id, op)), sys.workers[t := Called(sys.workers[t], id, op)])
    case Go(t, step) => sys.(workers := sys.workers[t := Gone(sys.workers[t], step)])
  }

  /** Every move is possible where it happens, and what it does to the ledger satisfies `h`. */
  ghost predicate Program(sys: System, moves: seq<Move>, h: (World, Action) -> bool)
    decreases |moves|
  {
    moves == [] || (
      && Allowed(sys, moves[0])
      && (forall a :: a in OnLedger(moves[0]) ==> h(sys.world, a))
      && Program(Next(sys, moves[0]), moves[1..], h))
  }

  ghost function After(sys: System, moves: seq<Move>, h: (World, Action) -> bool): System
    requires Program(sys, moves, h)
    decreases |moves|
  {
    if moves == [] then sys else After(Next(sys, moves[0]), moves[1..], h)
  }

  /** The ledger's part of a run. */
  function Projected(moves: seq<Move>): seq<Action> {
    if moves == [] then [] else OnLedger(moves[0]) + Projected(moves[1..])
  }

  // ---------------------------------------------------------------------------------------
  // Invariant

  ghost predicate WorkerOk(k: Worker) {
    && S.Inv(k.sup, k.renewable)
    && (k.renewCall.Some? ==> AtRenewSite(k))
    && (k.mainCall.Some? ==> AtMainSite(k))
  }

  /** A call that is running with a token is one its worker waits for. */
  ghost predicate Awaited(workers: map<Token, Worker>, i: nat, op: Op) {
    Owner(op) ==>
      && op.token in workers
      && Some(i) == if Renewal(op, op.token) then workers[op.token].renewCall else workers[op.token].mainCall
  }

  ghost predicate Linked(sys: System) {
    && (forall t :: t in sys.workers ==> WorkerOk(sys.workers[t]))
    && (forall i :: i in sys.world.ops ==> Awaited(sys.workers, i, sys.world.ops[i]))
    && (forall t :: Completing(sys.world.bucket, t) ==> t in sys.workers && S.StopReturned(sys.workers[t].sup))
  }

  /** The goroutines make their calls one at a time, and renew no more once they complete. */
  ghost predicate Serially(w: World, a: Action) {
    a.Spawn? && Owner(a.op) ==> Idle(w.ops, a.op.token) && RenewedFirst(w, a.op)
  }

  lemma CallSerial(sys: System, m: Move)
    requires Linked(sys) && Allowed(sys, m) && m.Call?
    ensures Serially(sys.world, Spawn(m.id, m.op))
  {
    var k := sys.workers[m.t];
    assert WorkerOk(k);
    forall i | i in sys.world.ops && Owner(sys.world.ops[i]) ensures sys.world.ops[i].token != m.t {
      assert Awaited(sys.workers, i, sys.world.ops[i]);
    }
  }

  /** A step inside a call keeps the call's token and kind, or ends the call. */
  lemma StepKeepsOwner(b: Bucket, op: Op, reply: Reply, rev: nat, token: Token)
    requires !op.Done?
    ensures
      var op' := OpStep(b, op, reply, rev, token).1;
      Owner(op') ==> Owner(op) && op'.token == op.token && (Renewal(op', op.token) <==> Renewal(op, op.token))
    ensures OpStep(b, op, reply, rev, token).0.outputs == b.outputs
  {
  }

  lemma OutsideLinked(sys: System, a: Action)
    requires Linked(sys) && Allowed(sys, Outside(a))
    ensures Linked(Next(sys, Outside(a)))
  {
    var w, w' := sys.world, Step(sys.world, a);
    if a.Advance? {
      StepKeepsOwner(w.bucket, w.ops[a.id], a.reply, a.rev, a.token);
    }
    forall i | i in w'.ops ensures Awaited(sys.workers, i, w'.ops[i]) {
      if i in w.ops {
        assert Awaited(sys.workers, i, w.ops[i]);
      }
    }
    assert w'.bucket.outputs == w.bucket.outputs;
    assert forall t :: Completing(w'.bucket, t) == Completing(w.bucket, t);
  }

  lemma CallLinked(sys: System, m: Move)
    requires Linked(sys) && Allowed(sys, m) && m.Call?
    ensures Linked(Next(sys, m))
  {
    CallSerial(sys, m);
  }

  lemma GoneOk(k: Worker, step: S.Action)
    requires WorkerOk(k) && S.Enabled(k.sup, step)
    ensures WorkerOk(Gone(k, step))
    ensures S.StopReturned(k.sup) ==> S.StopReturned(Gone(k, step).sup)
  {
    S.StepInv(k.sup, step, k.renewable);
  }

  lemma GoLinked(sys: System, m: Move)
    requires Linked(sys) && Allowed(sys, m) && m.Go?
    ensures Linked(Next(sys, m))
  {
    var k, sys' := sys.workers[m.t], Next(sys, m);
    assert WorkerOk(k);
    GoneOk(k, m.step);
    forall i | i in sys.world.ops ensures Awaited(sys'.workers, i, sys.world.ops[i]) {
      assert Awaited(sys.workers, i, sys.world.ops[i]);
    }
  }

  lemma NextLinked(sys: System, m: Move)
    requires Linked(sys) && Allowed(sys, m)
    ensures Linked(Next(sys, m))
  {
    match m
    case Outside(a) => OutsideLinked(sys, a);
    case Call(_, _, _) => CallLinked(sys, m);
    case Go(_, _) => GoLinked(sys, m);
    case Begin(t, renewable) =>
  }

  // ---------------------------------------------------------------------------------------
  // Every run of the workers is a serial run of the ledger

  /** What is known of a ledger action in such a run. */
  ghost function AndSerially(h: (World, Action) -> bool): (World, Action) -> bool {
    (w, a) => h(w, a) && Serially(w, a)
  }

  lemma {:induction false} ProgramIsSerial(sys: System, moves: seq<Move>, h: (World, Action) -> bool)
    requires Linked(sys) && Program(sys, moves, h)
    ensures Legal(sys.world, Projected(moves), AndSerially(h))
    ensures Run(sys.world, Projected(moves), AndSerially(h)) == After(sys, moves, h).world
    decreases |moves|
  {
    if moves != [] {
      var m, rest := moves[0], Projected(moves[1..]);
      NextLinked(sys, m);
      ProgramIsSerial(Next(sys, m), moves[1..], h);
      if m.Outside? || m.Call? {
        var a := OnLedger(m)[0];
        assert a in OnLedger(m);
        if m.Call? {
          CallSerial(sys, m);
        }
        assert Projected(moves)[0] == a && Projected(moves)[1..] == rest;
      } else {
        assert Projected(moves) == rest;
      }
    }
  }

  function Alone(w: World): System {
    System(w, map[])
  }

  lemma AloneLinked(w: World)
    requires Init(w)
    ensures Linked(Alone(w))
  {
    assert w.bucket.outputs == {};
  }

  /** Each claim is written while no entry can be found, and each entry write lands before the lease
      extended for it ends. */
  predicate Timely(w: World, a: Action) {
    VacantClaims(w, a) && (Lands(w, a) && w.ops[a.id].CompletePut? ==> w.bucket.clock < w.ops[a.id].exp)
  }

  /** In every timely run of any number of such workers, an entry that can still be found is only ever
      overwritten by the token that published it. That their calls follow one another is no
      assumption: it is what the two goroutines do. */
  lemma WorkersPublishOnce(w0: World, moves: seq<Move>, a: Action, t: Token)
    requires Init(w0) && Program(Alone(w0), moves, Timely)
    requires
      var sys := After(Alone(w0), moves, Timely);
      Allowed(sys, Outside(a)) && Timely(sys.world, a) && Publishes(sys.world, a, t)
    ensures
      var b := After(Alone(w0), moves, Timely).world.bucket;
      Vacant(b) || b.publisher == Some(t)
  {
    AloneLinked(w0);
    ProgramIsSerial(Alone(w0), moves, Timely);
    forall w, a | AndSerially(Timely)(w, a) ensures Disciplined(w, a) {
      assert Timely(w, a) && Serially(w, a);
    }
    Weaken(w0, Projected(moves), AndSerially(Timely), Disciplined);
    DisciplinedSinglePublication(w0, Projected(moves), a, t);
  }

  /** Claims and renewals ask for one lease, as executeWithCoordinator does. */
  ghost function SameLease(lease: int): (World, Action) -> bool {
    (w: World, a: Action) => a.Spawn? && (a.op.Lookup? || a.op.RenewGet?) ==> EffectiveTTL(w.bucket, a.op.ttl) == lease
  }

  /** With a lease no longer than the default one, at most one of any number of such workers trusts
      its lease at any time, whatever replies are lost. */
  lemma WorkersTrustLease(w0: World, moves: seq<Move>, lease: int)
    requires Init(w0) && 0 < lease <= w0.bucket.lease0 && Program(Alone(w0), moves, SameLease(lease))
    ensures Exclusive(After(Alone(w0), moves, SameLease(lease)).world.bucket)
  {
    AloneLinked(w0);
    ProgramIsSerial(Alone(w0), moves, SameLease(lease));
    forall w, a | AndSerially(SameLease(lease))(w, a) ensures Common(lease)(w, a) {
      assert SameLease(lease)(w, a) && Serially(w, a);
      assert CommonLease(lease, w, a);
    }
    Weaken(w0, Projected(moves), AndSerially(SameLease(lease)), Common(lease));
    ExclusiveRun(w0, Projected(moves), lease, w0.bucket.lease0);
  }
}
