/** Do, its ordered shutdown and the worker count: message callbacks that start counted workers,
    pull workers started while bindings are mounted, and calls of Do and Close, all interleaved. */
module WorkerDrain {
  import opened Identifiers

  datatype Pc =
    // Do
    | DoStart            // running.CompareAndSwap(false, true)
    | DoReset            // closing = false
    | DoConnect          // EnsureConn, which fails once closing is set
    | DoSetup            // ensureJetStream
    | DoMount            // mountActions: the next binding's subscription or watch
    | DoAdd              // it is open, and its worker is about to be counted
    | DoServe            // until the context ends or the connection closes
    | DoShutdown         // closing = true, subscriptions taken and unsubscribed
    | DoWait             // workersWg.Wait()
    | DoClose            // Close()
    | DoExit             // running = false, after the shutdown
    | DoDone
    | DoAbort            // running = false, after a failed setup: no shutdown, closing stays as it is
    | DoFailed
    | DoRefused
    // a message callback and its worker, or a pull worker
    | Callback           // startWorker
    | Working            // counted, running
    | WorkDone
    | Rejected

  type Proc = nat

  /** The connection: supplied by the caller or dialed, held in the transport's fields, and open. */
  datatype Link = Link(provided: bool, held: bool, open: bool)

  /** `count` is the wait group's counter; `active` is the set of counted goroutines that run. */
  datatype World = World(closing: bool, running: bool, link: Link, count: int, active: set<Proc>, procs: map<Proc, Pc>)

  /** `fails`: connecting, setup, mounting or serving ends with an error; `worker`: the goroutine that
      is counted. */
  datatype Action =
    | SpawnDo(id: Proc)
    | SpawnCallback(id: Proc)
    | Close                                      // someone calls Close: it sets closing
    | Release                                    // and takes the connection, closing one it dialed
    | Break                                      // the connection closes by itself
    | Move(id: Proc, fails: bool)
    | Open(id: Proc)                             // a subscription or watch is opened
    | Mount(id: Proc, worker: Proc)              // its worker is counted and started

  predicate Finished(pc: Pc) {
    pc.DoDone? || pc.DoFailed? || pc.DoRefused? || pc.WorkDone? || pc.Rejected?
  }

  predicate Enabled(w: World, a: Action) {
    match a
    case SpawnDo(id) => id !in w.procs
    case SpawnCallback(id) => id !in w.procs
    case Close => true
    case Release => w.closing
    case Break => true
    case Open(id) => id in w.procs && w.procs[id].DoMount? && w.link.open
    case Mount(id, worker) => id in w.procs && w.procs[id].DoAdd? && worker !in w.procs
    case Move(id, fails) =>
      && id in w.procs
      && !Finished(w.procs[id]) && !w.procs[id].DoAdd?
      && (w.procs[id].DoWait? ==> w.count == 0)
  }

  /** What is left of the connection when Close has taken it. */
  function Taken(l: Link): Link {
    l.(held := false, open := l.open && l.provided)
  }

  /** EnsureConn succeeds: not once closing is set, and with a caller-supplied connection only while that
      one is there. */
  predicate Connects(w: World) {
    !w.closing && (w.link.provided ==> w.link.held && w.link.open)
  }

  /** A step of Do: it never touches the count. */
  function DoStep(w: World, id: Proc, pc: Pc, fails: bool): World {
    var (closing', running', link', pc') :=
      match pc
      case DoStart => (w.closing, true, w.link, if w.running then DoRefused else DoReset)
      case DoReset => (false, w.running, w.link, DoConnect)
      case DoConnect =>
        if fails || !Connects(w) then (w.closing, w.running, w.link, DoAbort)
        else (w.closing, w.running, w.link.(held := true, open := true), DoSetup)
      case DoSetup => (w.closing, w.running, w.link, if fails || !w.link.held then DoAbort else DoMount)
      case DoMount => (w.closing, w.running, w.link, if fails then DoShutdown else DoServe)
      case DoServe => (w.closing, w.running, w.link, DoShutdown)
      case DoShutdown => (true, w.running, w.link, DoWait)
      case DoWait => (w.closing, w.running, w.link, DoClose)
      case DoClose => (true, w.running, Taken(w.link), DoExit)
      case DoExit => (w.closing, false, w.link, DoDone)
      case DoAbort => (w.closing, false, w.link, DoFailed)
      case _ => (w.closing, w.running, w.link, pc);
    w.(closing := closing', running := running', link := link', procs := w.procs[id := pc'])
  }

  function StartWorker(w: World, id: Proc): World {
    if w.closing then w.(procs := w.procs[id := Rejected])
    else w.(count := w.count + 1, active := w.active + {id}, procs := w.procs[id := Working])
  }

  function FinishWorker(w: World, id: Proc): World {
    w.(count := w.count - 1, active := w.active - {id}, procs := w.procs[id := WorkDone])
  }

  function MoveStep(w: World, id: Proc, fails: bool): World
    requires Enabled(w, Move(id, fails))
  {
    var pc := w.procs[id];
    if pc.Callback? then StartWorker(w, id)
    else if pc.Working? then FinishWorker(w, id)
    else DoStep(w, id, pc, fails)
  }

  function Step(w: World, a: Action): World
    requires Enabled(w, a)
  {
    match a
    case SpawnDo(id) => w.(procs := w.procs[id := DoStart])
    case SpawnCallback(id) => w.(procs := w.procs[id := Callback])
    case Close => w.(closing := true)
    case Release => w.(link := Taken(w.link))
    case Break => w.(link := w.link.(open := false))
    case Open(id) => w.(procs := w.procs[id := DoAdd])
    case Mount(id, worker) =>
      w.(count := w.count + 1, active := w.active + {worker}, procs := w.procs[id := DoMount][worker := Working])
    case Move(id, fails) => MoveStep(w, id, fails)
  }

  /** New or FromConn. */
  predicate Idle(w: World) {
    !w.closing && !w.running && w.count == 0 && w.active == {} && w.procs == map[] && (w.link.held ==> w.link.provided)
  }

  ghost predicate Legal(w: World, run: seq<Action>)
    decreases |run|
  {
    run == [] || (Enabled(w, run[0]) && Legal(Step(w, run[0]), run[1..]))
  }

  ghost function Run(w: World, run: seq<Action>): World
    requires Legal(w, run)
    decreases |run|
  {
    if run == [] then w else Run(Step(w, run[0]), run[1..])
  }

  // ---------------------------------------------------------------------------------------
  // Invariant

  /** Between winning the running flag and giving it back. */
  predicate Running(pc: Pc) {
    || pc.DoReset? || pc.DoConnect? || pc.DoSetup? || pc.DoMount? || pc.DoAdd? || pc.DoServe? || pc.DoShutdown?
    || pc.DoWait? || pc.DoClose? || pc.DoExit? || pc.DoAbort?
  }

  ghost predicate Counted(w: World) {
    && w.count == |w.active|
    && forall i :: i in w.active <==> i in w.procs && w.procs[i].Working?
  }

  ghost predicate OneRunner(w: World) {
    && (forall i :: i in w.procs && Running(w.procs[i]) ==> w.running)
    && (forall i, j :: i in w.procs && j in w.procs && Running(w.procs[i]) && Running(w.procs[j]) ==> i == j)
  }

  predicate AfterClosing(pc: Pc) {
    pc.DoWait? || pc.DoClose? || pc.DoExit?
  }

  ghost predicate Shut(w: World) {
    && (forall i :: i in w.procs && AfterClosing(w.procs[i]) ==> w.closing)
    && (forall i :: i in w.procs && (w.procs[i].DoClose? || w.procs[i].DoExit?) ==> w.active == {})
  }

  ghost predicate Inv(w: World) {
    Counted(w) && OneRunner(w) && Shut(w)
  }

  lemma DoCounted(w: World, id: Proc, fails: bool)
    requires Inv(w) && Enabled(w, Move(id, fails)) && !w.procs[id].Callback? && !w.procs[id].Working?
    ensures Counted(DoStep(w, id, w.procs[id], fails))
  {
  }

  lemma DoOneRunner(w: World, id: Proc, fails: bool)
    requires Inv(w) && Enabled(w, Move(id, fails)) && !w.procs[id].Callback? && !w.procs[id].Working?
    ensures OneRunner(DoStep(w, id, w.procs[id], fails))
  {
  }

  lemma DoShut(w: World, id: Proc, fails: bool)
    requires Inv(w) && Enabled(w, Move(id, fails)) && !w.procs[id].Callback? && !w.procs[id].Working?
    ensures Shut(DoStep(w, id, w.procs[id], fails))
  {
  }

  lemma StartCounted(w: World, id: Proc)
    requires Inv(w) && id in w.procs && w.procs[id].Callback?
    ensures Counted(StartWorker(w, id))
  {
    assert id !in w.active;
  }

  lemma StartOneRunner(w: World, id: Proc)
    requires Inv(w) && id in w.procs && w.procs[id].Callback?
    ensures OneRunner(StartWorker(w, id))
  {
  }

  lemma StartShut(w: World, id: Proc)
    requires Inv(w) && id in w.procs && w.procs[id].Callback?
    ensures Shut(StartWorker(w, id))
  {
  }

  lemma StartInv(w: World, id: Proc)
    requires Inv(w) && id in w.procs && w.procs[id].Callback?
    ensures Inv(StartWorker(w, id))
  {
    StartCounted(w, id);
    StartOneRunner(w, id);
    StartShut(w, id);
  }

  lemma FinishInv(w: World, id: Proc)
    requires Inv(w) && id in w.procs && w.procs[id].Working?
    ensures Inv(FinishWorker(w, id))
  {
    assert Counted(FinishWorker(w, id)) by {
      assert w.active == (w.active - {id}) + {id};
    }
  }

  lemma MountCounted(w: World, id: Proc, worker: Proc)
    requires Inv(w) && Enabled(w, Mount(id, worker))
    ensures Counted(Step(w, Mount(id, worker)))
  {
    assert worker !in w.active;
  }

  lemma MountOneRunner(w: World, id: Proc, worker: Proc)
    requires Inv(w) && Enabled(w, Mount(id, worker))
    ensures OneRunner(Step(w, Mount(id, worker)))
  {
  }

  lemma MountShut(w: World, id: Proc, worker: Proc)
    requires Inv(w) && Enabled(w, Mount(id, worker))
    ensures Shut(Step(w, Mount(id, worker)))
  {
    assert forall i :: i in w.procs && i != id ==> !Running(w.procs[i]);
  }

  lemma MountInv(w: World, id: Proc, worker: Proc)
    requires Inv(w) && Enabled(w, Mount(id, worker))
    ensures Inv(Step(w, Mount(id, worker)))
  {
    MountCounted(w, id, worker);
    MountOneRunner(w, id, worker);
    MountShut(w, id, worker);
  }

  lemma OpenInv(w: World, id: Proc)
    requires Inv(w) && Enabled(w, Open(id))
    ensures Inv(Step(w, Open(id)))
  {
  }

  lemma SpawnInv(w: World, id: Proc, pc: Pc)
    requires Inv(w) && id !in w.procs && (pc.DoStart? || pc.Callback?)
    ensures Inv(w.(procs := w.procs[id := pc]))
  {
  }

  lemma StepInv(w: World, a: Action)
    requires Inv(w) && Enabled(w, a)
    ensures Inv(Step(w, a))
  {
    match a
    case Move(id, fails) =>
      if w.procs[id].Callback? {
        StartInv(w, id);
      } else if w.procs[id].Working? {
        FinishInv(w, id);
      } else {
        DoCounted(w, id, fails);
        DoOneRunner(w, id, fails);
        DoShut(w, id, fails);
      }
    case Mount(id, worker) => MountInv(w, id, worker);
    case SpawnDo(id) => SpawnInv(w, id, DoStart);
    case Open(id) => OpenInv(w, id);
    case SpawnCallback(id) => SpawnInv(w, id, Callback);
    case Close =>
    case Release =>
    case Break =>
  }

  lemma {:induction false} RunInv(w: World, run: seq<Action>)
    requires Inv(w) && Legal(w, run)
    ensures Inv(Run(w, run))
    decreases |run|
  {
    if run != [] {
      StepInv(w, run[0]);
      RunInv(Step(w, run[0]), run[1..]);
    }
  }

  // ---------------------------------------------------------------------------------------
  // Theorems

  /** Two runs of Do never overlap, and the counter is the number of counted goroutines. */
  lemma SingleRunner(w0: World, run: seq<Action>, i: Proc, j: Proc)
    requires Idle(w0) && Legal(w0, run) && i in Run(w0, run).procs && j in Run(w0, run).procs
    ensures
      var w := Run(w0, run);
      && w.count == |w.active|
      && (Running(w.procs[i]) && Running(w.procs[j]) ==> i == j)
  {
    RunInv(w0, run);
  }

  /** The running flag is set only while some Do runs. */
  ghost predicate Occupied(w: World) {
    w.running ==> exists i :: i in w.procs && Running(w.procs[i])
  }

  lemma StepOccupied(w: World, a: Action)
    requires Inv(w) && Occupied(w) && Enabled(w, a)
    ensures Occupied(Step(w, a))
  {
    var w' := Step(w, a);
    if w'.running {
      if w.running {
        var i :| i in w.procs && Running(w.procs[i]);
        assert i in w'.procs && Running(w'.procs[i]);
      } else {
        assert Running(w'.procs[a.id]);
      }
    }
  }

  lemma {:induction false} OccupiedRun(w: World, run: seq<Action>)
    requires Inv(w) && Occupied(w) && Legal(w, run)
    ensures Occupied(Run(w, run))
    decreases |run|
  {
    if run != [] {
      StepInv(w, run[0]);
      StepOccupied(w, run[0]);
      OccupiedRun(Step(w, run[0]), run[1..]);
    }
  }

  /** In every reachable state a call of Do is refused if and only if another one is running, also after
      earlier ones have ended in any way. */
  lemma RefusedIffRunning(w0: World, run: seq<Action>, id: Proc, fails: bool)
    requires Idle(w0) && Legal(w0, run) && id in Run(w0, run).procs && Run(w0, run).procs[id].DoStart?
    ensures
      var w := Run(w0, run);
      var w' := Step(w, Move(id, fails));
      && (w'.procs[id].DoRefused? <==> exists j :: j in w.procs && Running(w.procs[j]))
      && (!w'.procs[id].DoRefused? ==> Running(w'.procs[id]))
  {
    RunInv(w0, run);
    OccupiedRun(w0, run);
  }

  /** In every reachable state a message callback starts a counted worker if and only if the transport is
      not closing; otherwise it changes nothing. */
  lemma CallbackStarts(w0: World, run: seq<Action>, id: Proc, fails: bool)
    requires Idle(w0) && Legal(w0, run) && id in Run(w0, run).procs && Run(w0, run).procs[id].Callback?
    ensures
      var w := Run(w0, run);
      var w' := Step(w, Move(id, fails));
      && (id in w'.active <==> !w.closing)
      && w'.count == w.count + (if w.closing then 0 else 1) && w'.count == |w'.active|
      && w'.active - {id} == w.active && (w.closing ==> w'.procs[id].Rejected?)
  {
    RunInv(w0, run);
    StepInv(Run(w0, run), Move(id, fails));
  }

  /** Do's reset of the closing flag: the start of the next run. */
  predicate Resets(w: World, a: Action) {
    a.Move? && a.id in w.procs && w.procs[a.id].DoReset?
  }

  ghost predicate NoReset(w: World, run: seq<Action>)
    requires Legal(w, run)
    decreases |run|
  {
    run == [] || (!Resets(w, run[0]) && NoReset(Step(w, run[0]), run[1..]))
  }

  /** A Do at `pc` can still get to count a worker: its subscription is open, or the connection it got
      from EnsureConn still serves. */
  predicate MayMount(l: Link, pc: Pc) {
    pc.DoAdd? || (pc.DoMount? && l.open) || (pc.DoSetup? && l.held && l.open)
  }

  /** The transport is closing and no run of Do can still mount. */
  ghost predicate PastMounting(w: World) {
    w.closing && forall i :: i in w.procs ==> !MayMount(w.link, w.procs[i])
  }

  /** A step of Do does not bring it back to mounting, nor the connection back. */
  lemma DoPast(w: World, id: Proc, fails: bool)
    requires PastMounting(w) && Enabled(w, Move(id, fails)) && !w.procs[id].DoReset?
    ensures PastMounting(DoStep(w, id, w.procs[id], fails))
  {
    assert !MayMount(w.link, w.procs[id]);
  }

  /** From there on, until the next reset, goroutines only end. */
  lemma PastStep(w: World, a: Action)
    requires Inv(w) && PastMounting(w) && Enabled(w, a) && !Resets(w, a)
    ensures PastMounting(Step(w, a))
    ensures Step(w, a).active <= w.active && Step(w, a).count <= w.count
  {
    if a.Move? {
      DoPast(w, a.id, a.fails);
    } else if a.Open? || a.Mount? {
      assert MayMount(w.link, w.procs[a.id]);
    }
  }

  lemma {:induction false} PastRun(w: World, run: seq<Action>)
    requires Inv(w) && PastMounting(w) && Legal(w, run) && NoReset(w, run)
    ensures Run(w, run).count <= w.count
    decreases |run|
  {
    if run != [] {
      StepInv(w, run[0]);
      PastStep(w, run[0]);
      PastRun(Step(w, run[0]), run[1..]);
    }
  }

  /** No continuation up to the next Do's reset ever raises the count. */
  ghost predicate NeverRises(w: World) {
    forall run | Legal(w, run) && NoReset(w, run) :: Run(w, run).count <= w.count
  }

  /** A Do that may still mount can raise the count. */
  lemma MountRises(w: World, id: Proc) returns (run: seq<Action>)
    requires id in w.procs && MayMount(w.link, w.procs[id])
    ensures Legal(w, run) && NoReset(w, run) && Run(w, run).count > w.count
    decreases if w.procs[id].DoSetup? then 2 else if w.procs[id].DoMount? then 1 else 0
  {
    var a;
    run := [];
    if w.procs[id].DoAdd? {
      var worker := Unused(w.procs.Keys);
      a := Mount(id, worker);
    } else {
      a := if w.procs[id].DoSetup? then Move(id, false) else Open(id);
      run := MountRises(Step(w, a), id);
    }
    Cons(w, a, Step(w, a), run, Run(Step(w, a), run));
    assert ([a] + run)[1..] == run;
    run := [a] + run;
  }

  /** In every reachable state in which closing is set: the count can rise no more before the next
      Do's reset if and only if no Do has a subscription about to be counted, or is setting up or
      mounting on a connection that still serves. */
  lemma CountWhileClosing(w0: World, before: seq<Action>)
    requires Idle(w0) && Legal(w0, before) && Run(w0, before).closing
    ensures NeverRises(Run(w0, before)) <==> PastMounting(Run(w0, before))
  {
    RunInv(w0, before);
    var w := Run(w0, before);
    if PastMounting(w) {
      forall run | Legal(w, run) && NoReset(w, run) ensures Run(w, run).count <= w.count {
        PastRun(w, run);
      }
    } else {
      var id :| id in w.procs && MayMount(w.link, w.procs[id]);
      var run := MountRises(w, id);
    }
  }

  /** Where the Do that shut down may be, and what its having waited means. */
  ghost predicate Draining(w: World, id: Proc) {
    && PastMounting(w) && id in w.procs
    && (w.procs[id].DoWait? || ((w.procs[id].DoClose? || w.procs[id].DoExit? || w.procs[id].DoDone?) && w.active == {}))
  }

  lemma DrainStep(w: World, a: Action, id: Proc)
    requires Inv(w) && Draining(w, id) && Enabled(w, a) && !Resets(w, a)
    ensures Draining(Step(w, a), id)
    ensures Step(w, a).active <= w.active && Step(w, a).count <= w.count
  {
    PastStep(w, a);
  }

  lemma {:induction false} DrainRun(w: World, run: seq<Action>, id: Proc)
    requires Inv(w) && Draining(w, id) && Legal(w, run) && NoReset(w, run)
    ensures Draining(Run(w, run), id)
    ensures Run(w, run).active <= w.active && Run(w, run).count <= w.count
    decreases |run|
  {
    if run != [] {
      StepInv(w, run[0]);
      DrainStep(w, run[0], id);
      DrainRun(Step(w, run[0]), run[1..], id);
    }
  }

  /** Take any interleaving that brings a Do to the point where its shutdown has set closing, and any
      continuation up to the next Do's reset. The set of counted goroutines only shrinks along it;
      once that Do's wait has returned the set is empty, and it stays empty. */
  lemma ShutdownDrains(w0: World, before: seq<Action>, after: seq<Action>, id: Proc)
    requires Idle(w0) && Legal(w0, before)
    requires id in Run(w0, before).procs && Run(w0, before).procs[id].DoWait?
    requires Legal(Run(w0, before), after) && NoReset(Run(w0, before), after)
    ensures
      var w, w' := Run(w0, before), Run(Run(w0, before), after);
      && w'.closing && w'.active <= w.active && w'.count <= w.count
      && id in w'.procs && (!w'.procs[id].DoWait? ==> w'.count == 0 && w'.active == {})
  {
    RunInv(w0, before);
    RunInv(Run(w0, before), after);
    DrainRun(Run(w0, before), after, id);
  }

  lemma Cons(w: World, a: Action, next: World, rest: seq<Action>, last: World)
    requires Enabled(w, a) && Step(w, a) == next && Legal(next, rest) && Run(next, rest) == last
    ensures Legal(w, [a] + rest) && Run(w, [a] + rest) == last
  {
    assert ([a] + rest)[1..] == rest;
  }

  /** A transport that dials, whose only call is Do, at `pc`. */
  function Alone(closing: bool, connected: bool, pc: Pc): World {
    World(closing, true, Link(false, connected, connected), 0, {}, map[0 := pc])
  }

  lemma Onward(pc: Pc)
    requires pc.DoReset? || pc.DoConnect? || pc.DoSetup?
    ensures
      var w := Alone(false, pc.DoSetup?, pc);
      Enabled(w, Move(0, false)) && Step(w, Move(0, false)) ==
        if pc.DoReset? then Alone(false, false, DoConnect)
        else Alone(false, true, if pc.DoConnect? then DoSetup else DoMount)
  {
    var w := Alone(false, pc.DoSetup?, pc);
    var w' := Step(w, Move(0, false));
    assert w'.procs == map[0 := w'.procs[0]];
  }

  /** From its reset, one Do gets to mounting, and there a Close arrives. */
  lemma CloseArrives() returns (run: seq<Action>)
    ensures Legal(Alone(false, false, DoReset), run) && Run(Alone(false, false, DoReset), run) == Alone(true, true, DoMount)
  {
    var last, go := Alone(true, true, DoMount), Move(0, false);
    Cons(Alone(false, true, DoMount), Close, last, [], last);
    run := [Close] + [];
    Onward(DoSetup);
    Cons(Alone(false, true, DoSetup), go, Alone(false, true, DoMount), run, last);
    run := [go] + run;
    Onward(DoConnect);
    Cons(Alone(false, false, DoConnect), go, Alone(false, true, DoSetup), run, last);
    run := [go] + run;
    Onward(DoReset);
    Cons(Alone(false, false, DoReset), go, Alone(false, false, DoConnect), run, last);
    run := [go] + run;
  }

  /** Without the shutdown's order the claim fails: a Close that arrives while Do mounts its bindings
      sets closing, and the next pull worker is counted all the same. */
  lemma CloseDuringMount(w0: World) returns (run: seq<Action>)
    requires w0 == World(false, false, Link(false, false, false), 0, {}, map[])
    ensures Idle(w0) && Legal(w0, run) && Run(w0, run).closing && Run(w0, run).count == 0
    ensures !NeverRises(Run(w0, run))
  {
    var last, begun := Alone(true, true, DoMount), w0.(procs := map[0 := DoStart]);
    run := CloseArrives();
    Cons(begun, Move(0, false), Alone(false, false, DoReset), run, last);
    run := [Move(0, false)] + run;
    Cons(w0, SpawnDo(0), begun, run, last);
    run := [SpawnDo(0)] + run;
    CountWhileClosing(w0, run);
    assert MayMount(last.link, last.procs[0]);
  }
}
