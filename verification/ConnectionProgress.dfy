/** What callers of EnsureConn and Close get: without any help from outside Close comes back, because
    the dial it waits for has been told to stop, and EnsureConn returns a connection that was current
    during the call. */
module ConnectionProgress {
  import opened Options
  import opened ConnectionGate

  // ---------------------------------------------------------------------------------------
  // Close returns

  /** A step of a running call that needs no help from outside: no connection comes up. */
  predicate OwnPower(w: World, a: Action) {
    a.Move? && a.id in w.procs && (w.procs[a.id].Connecting? || w.procs[a.id].Waiting? ==> a.choice.fails)
  }

  /** A run of such steps only; so no caller's context ends, nothing breaks and no call is added. */
  ghost predicate Unaided(w: World, run: seq<Action>)
    requires Legal(w, run)
    decreases |run|
  {
    run == [] || (OwnPower(w, run[0]) && Unaided(Step(w, run[0]), run[1..]))
  }

  /** Distance to the end of a call. */
  function PcRank(pc: Pc): nat {
    match pc
    case EnsureStart => 11
    case EnsureGate => 10
    case EnsureHeld => 9
    case DialStart => 8
    case Connecting => 7
    case Waiting(_) => 6
    case Preparing(_) => 5
    case Installing(_) => 4
    case Discarding(_) => 3
    case Cleanup(_) => 2
    case EnsureUnlock(_) => 1
    case EnsureDone(_) => 0
    case CloseStart => 6
    case Cancelling(_) => 5
    case CloseGate => 4
    case CloseHeld => 3
    case Closing(_) => 2
    case CloseUnlock => 1
    case CloseDone => 0
  }

  ghost function Pick(procs: map<Proc, Pc>): (i: Proc)
    requires procs != map[]
    ensures i in procs
  {
    assert procs.Keys != {};
    var i :| i in procs;
    i
  }

  ghost function Total(procs: map<Proc, Pc>): nat
    decreases |procs|
  {
    if procs == map[] then 0 else
    var i := Pick(procs);
    PcRank(procs[i]) + Total(procs - {i})
  }

  lemma {:induction false} TotalSplit(procs: map<Proc, Pc>, i: Proc)
    requires i in procs
    ensures Total(procs) == PcRank(procs[i]) + Total(procs - {i})
    decreases |procs|
  {
    var j := Pick(procs);
    if j != i {
      TotalSplit(procs - {j}, i);
      TotalSplit(procs - {i}, j);
      assert procs - {j} - {i} == procs - {i} - {j};
    }
  }

  lemma MoveForward(t: Transport, id: Proc, pc: Pc, ch: Choice)
    requires EnsurePc(pc) || ClosePc(pc)
    ensures PcRank(Moved(t, id, pc, ch).1) < PcRank(pc)
  {
  }

  lemma MoveTotal(w: World, id: Proc, ch: Choice)
    requires Enabled(w, Move(id, ch))
    ensures Total(Step(w, Move(id, ch)).procs) < Total(w.procs)
  {
    var procs' := Step(w, Move(id, ch)).procs;
    MoveForward(w.t, id, w.procs[id], ch);
    TotalSplit(w.procs, id);
    TotalSplit(procs', id);
    assert procs' - {id} == w.procs - {id};
  }

  /** A holder that waits for a connection and may not give up yet: some Close is about to cancel its
      dial. */
  lemma Canceller(w: World, j: Proc) returns (q: Proc)
    requires Inv(w) && w.t.closing && j in w.procs && w.procs[j].Waiting? && !MayGiveUp(w.t, j, w.procs[j].made)
    ensures q in w.procs && w.procs[q] == Cancelling(Some(j))
  {
    assert CancelSent(w, j);
    q :| q in w.procs && w.procs[q] == Cancelling(Some(j));
  }

  /** As long as a Close is under way, some call can step without help. */
  lemma Unstuck(w: World, id: Proc) returns (a: Action)
    requires Inv(w) && id in w.procs && ClosePc(w.procs[id])
    ensures Enabled(w, a) && OwnPower(w, a)
  {
    var giveUp := Choice(true, 0);
    assert PcOk(w.t, id, w.procs[id]);
    a := Move(id, giveUp);
    if w.procs[id].CloseGate? && w.t.gate.Some? {
      var j := w.t.gate.value;
      assert PcOk(w.t, j, w.procs[j]);
      if w.procs[j].Waiting? && !MayGiveUp(w.t, j, w.procs[j].made) {
        j := Canceller(w, j);
      }
      a := Move(j, giveUp);
    }
  }

  lemma {:induction false} UnaidedRun(w: World, run: seq<Action>, id: Proc)
    requires Inv(w) && Legal(w, run) && Unaided(w, run) && id in w.procs && (ClosePc(w.procs[id]) || w.procs[id].CloseDone?)
    ensures |run| + Total(Run(w, run).procs) <= Total(w.procs)
    ensures
      var w' := Run(w, run);
      Inv(w') && id in w'.procs && (ClosePc(w'.procs[id]) || w'.procs[id].CloseDone?)
    decreases |run|
  {
    if run != [] {
      var a := run[0];
      StepInv(w, a);
      MoveTotal(w, a.id, a.choice);
      UnaidedRun(Step(w, a), run[1..], id);
    }
  }

  /** From every reachable state with a Close under way: every run in which the calls get no help from
      outside is bounded in length, and whenever it can go on no further, that Close has returned. */
  lemma CloseReturns(w0: World, before: seq<Action>, run: seq<Action>, id: Proc)
    requires Init(w0) && Legal(w0, before)
    requires id in Run(w0, before).procs && ClosePc(Run(w0, before).procs[id])
    requires Legal(Run(w0, before), run) && Unaided(Run(w0, before), run)
    ensures |run| <= Total(Run(w0, before).procs)
    ensures
      var w' := Run(Run(w0, before), run);
      && id in w'.procs
      && (w'.procs[id].CloseDone? || exists a :: Enabled(w', a) && OwnPower(w', a))
  {
    RunInv(w0, before);
    var w := Run(w0, before);
    UnaidedRun(w, run, id);
    var w' := Run(w, run);
    if !w'.procs[id].CloseDone? {
      var a := Unstuck(w', id);
    }
  }

  /** So there is such a run to its return. */
  lemma {:induction false} CloseComesBack(w: World, id: Proc) returns (run: seq<Action>)
    requires Inv(w) && id in w.procs && (ClosePc(w.procs[id]) || w.procs[id].CloseDone?)
    ensures Legal(w, run) && Unaided(w, run) && id in Run(w, run).procs && Run(w, run).procs[id].CloseDone?
    decreases Total(w.procs)
  {
    run := [];
    if !w.procs[id].CloseDone? {
      var a := Unstuck(w, id);
      StepInv(w, a);
      MoveTotal(w, a.id, a.choice);
      run := CloseComesBack(Step(w, a), id);
      assert ([a] + run)[1..] == run;
      run := [a] + run;
    }
  }

  // ---------------------------------------------------------------------------------------
  // What EnsureConn returns

  /** The call has `c` as its result. */
  predicate Returning(w: World, id: Proc, c: Conn) {
    id in w.procs
    && (w.procs[id] == EnsureDone(Some(c)) || w.procs[id] == EnsureUnlock(Some(c)) || w.procs[id] == Cleanup(Some(c)))
  }

  /** The call is running, `c` is current, and the transport is neither closing nor misconfigured. */
  predicate Current(w: World, id: Proc, c: Conn) {
    id in w.procs && w.t.conn == Some(c) && !w.t.closing && !w.t.initErr
  }

  /** Some state of the run, the first and the last included. */
  ghost predicate Passes(w: World, run: seq<Action>, id: Proc, c: Conn)
    requires Legal(w, run)
    decreases |run|
  {
    Current(w, id, c) || (run != [] && Passes(Step(w, run[0]), run[1..], id, c))
  }

  lemma {:induction false} ReturnRun(w: World, run: seq<Action>, id: Proc, c: Conn)
    requires Inv(w) && Legal(w, run) && Returning(Run(w, run), id, c)
    ensures Returning(w, id, c) || Passes(w, run, id, c)
    decreases |run|
  {
    if run != [] {
      StepInv(w, run[0]);
      ReturnRun(Step(w, run[0]), run[1..], id, c);
      NewReturn(w, run[0], id, c);
    }
  }

  /** A call gets its result from the transport's current connection. */
  lemma NewReturn(w: World, a: Action, id: Proc, c: Conn)
    requires Inv(w) && Enabled(w, a)
    ensures Returning(Step(w, a), id, c) ==> Returning(w, id, c) || Current(Step(w, a), id, c)
  {
    if id in w.procs {
      assert PcOk(w.t, id, w.procs[id]);
    }
  }

  /** The states of a run are those its prefixes reach. */
  lemma {:induction false} PassesAt(w: World, run: seq<Action>, id: Proc, c: Conn) returns (k: nat)
    requires Legal(w, run) && Passes(w, run, id, c)
    ensures k <= |run| && Legal(w, run[..k]) && Current(Run(w, run[..k]), id, c)
    decreases |run|
  {
    if Current(w, id, c) {
      assert run[..0] == [];
      return 0;
    }
    k := PassesAt(Step(w, run[0]), run[1..], id, c);
    k := k + 1;
    assert run[..k][1..] == run[1..][..k - 1];
  }

  /** Whenever EnsureConn has returned a connection, there was a moment during the call at which that
      connection was the transport's current one and the transport was not closing. */
  lemma ReturnsCurrent(w0: World, run: seq<Action>, id: Proc, c: Conn) returns (k: nat)
    requires Init(w0) && Legal(w0, run)
    requires id in Run(w0, run).procs && Run(w0, run).procs[id] == EnsureDone(Some(c))
    ensures k <= |run| && Legal(w0, run[..k])
    ensures
      var w := Run(w0, run[..k]);
      id in w.procs && w.t.conn == Some(c) && !w.t.closing && !w.t.initErr
  {
    ReturnRun(w0, run, id, c);
    k := PassesAt(w0, run, id, c);
  }

  // ---------------------------------------------------------------------------------------
  // What EnsureConn answers

  /** The transport has a connection to hand out. */
  predicate Ready(t: Transport, c: Conn) {
    !t.initErr && !t.closing && t.conn == Some(c) && c in t.open
  }

  /** Why EnsureConn must not hand one out: the caller's context, a bad configuration, closing, or a
      caller-supplied connection that is gone. */
  predicate Barred(t: Transport, id: Proc) {
    id in t.ended || t.initErr || t.closing || (t.provided.Some? && (t.conn.None? || t.conn.value !in t.open))
  }

  /** Either look of EnsureConn, in any state: with a connection to hand out and a live context it
      returns that connection, when it is barred it returns an error, and otherwise it goes on to dial;
      in no case does it change the transport. */
  lemma LookAnswers(w: World, id: Proc, ch: Choice)
    requires Enabled(w, Move(id, ch)) && (w.procs[id].EnsureStart? || w.procs[id].EnsureHeld?)
    ensures Step(w, Move(id, ch)).t == w.t
    ensures
      var pc, pc' := w.procs[id], Step(w, Move(id, ch)).procs[id];
      && (forall c :: Ready(w.t, c) && id !in w.t.ended ==>
            pc' == if pc.EnsureStart? then EnsureDone(Some(c)) else EnsureUnlock(Some(c)))
      && (Barred(w.t, id) ==> pc' == if pc.EnsureStart? then EnsureDone(None) else EnsureUnlock(None))
      && (!Barred(w.t, id) && NoCurrent(w.t) ==> pc' == if pc.EnsureStart? then EnsureGate else DialStart)
  {
  }

  lemma Cons(w: World, a: Action, rest: seq<Action>)
    requires Enabled(w, a) && Legal(Step(w, a), rest)
    ensures Legal(w, [a] + rest) && Run(w, [a] + rest) == Run(Step(w, a), rest)
  {
    assert ([a] + rest)[1..] == rest;
  }

  /** An undisturbed EnsureConn returns the current connection and leaves the transport alone. */
  lemma EnsureReturnsCurrent(w: World, id: Proc, c: Conn) returns (run: seq<Action>)
    requires Ready(w.t, c) && id !in w.procs && id !in w.t.ended
    ensures Legal(w, run) && Run(w, run) == World(w.t, w.procs[id := EnsureDone(Some(c))])
  {
    var look := Move(id, Choice(false, 0));
    var w1 := Step(w, SpawnEnsure(id));
    LookAnswers(w1, id, look.choice);
    assert Step(w1, look).procs == w.procs[id := EnsureDone(Some(c))];
    Cons(w1, look, []);
    run := [look] + [];
    Cons(w, SpawnEnsure(id), run);
    run := [SpawnEnsure(id)] + run;
  }

  /** The dial itself does not begin without a URL or on a transport that is closing. */
  lemma DialRefused(w: World, id: Proc, ch: Choice)
    requires Enabled(w, Move(id, ch)) && w.procs[id].DialStart?
    ensures
      var w' := Step(w, Move(id, ch));
      if !w.t.url || w.t.closing then w'.t == w.t && w'.procs[id] == EnsureUnlock(None)
      else w'.procs[id] == Connecting && w'.t.connectCancel == Some(id)
  {
  }

  /** Where an undisturbed EnsureConn whose dial succeeds stands. */
  predicate OnItsWay(w: World, id: Proc, made: Conn) {
    && id in w.procs && id !in w.t.ended && !w.t.initErr && !w.t.closing && w.t.provided.None? && w.t.url
    && match w.procs[id] {
         case EnsureStart => w.t.gate.None? && Undialed(w.t, made)
         case EnsureGate => w.t.gate.None? && Undialed(w.t, made)
         case EnsureHeld => Undialed(w.t, made)
         case DialStart => Undialed(w.t, made)
         case Connecting => Undialed(w.t, made)
         case Waiting(c) => c == made && made in w.t.open
         case Preparing(c) => c == made && made in w.t.open
         case Installing(c) => c == made && made in w.t.open
         case Cleanup(r) => r == Some(made) && w.t.conn == Some(made) && made in w.t.open
         case EnsureUnlock(r) => r == Some(made) && w.t.conn == Some(made) && made in w.t.open
         case EnsureDone(r) => r == Some(made) && w.t.conn == Some(made) && made in w.t.open && w.t.gate.None?
         case _ => false
       }
  }

  predicate Undialed(t: Transport, made: Conn) {
    NoCurrent(t) && made !in t.dialed && made !in t.open
  }

  lemma DialStep(w: World, id: Proc, made: Conn)
    requires OnItsWay(w, id, made) && !w.procs[id].EnsureDone?
    ensures Enabled(w, Move(id, Choice(false, made)))
    ensures OnItsWay(Step(w, Move(id, Choice(false, made))), id, made)
  {
  }

  lemma {:induction false} DialRun(w: World, id: Proc, made: Conn) returns (run: seq<Action>)
    requires OnItsWay(w, id, made)
    ensures Legal(w, run) && OnItsWay(Run(w, run), id, made) && Run(w, run).procs[id].EnsureDone?
    decreases PcRank(w.procs[id])
  {
    run := [];
    if !w.procs[id].EnsureDone? {
      var a := Move(id, Choice(false, made));
      DialStep(w, id, made);
      MoveForward(w.t, id, w.procs[id], a.choice);
      run := DialRun(Step(w, a), id, made);
      Cons(w, a, run);
      run := [a] + run;
    }
  }

  /** With no current connection, a URL and a free gate, an undisturbed EnsureConn whose dial comes up
      returns the connection it dialed, which is then current and open, with the gate free again. */
  lemma EnsureDials(w: World, id: Proc, made: Conn) returns (run: seq<Action>)
    requires id !in w.procs && id !in w.t.ended && !w.t.initErr && !w.t.closing && w.t.provided.None? && w.t.url
    requires w.t.gate.None? && NoCurrent(w.t) && made !in w.t.dialed && made !in w.t.open
    ensures Legal(w, run)
    ensures
      var w' := Run(w, run);
      && id in w'.procs && w'.procs[id] == EnsureDone(Some(made))
      && w'.t.conn == Some(made) && made in w'.t.open && w'.t.gate.None?
  {
    var a := SpawnEnsure(id);
    run := DialRun(Step(w, a), id, made);
    Cons(w, a, run);
    run := [a] + run;
  }
}
