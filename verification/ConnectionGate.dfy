/** The lazy connection: any number of EnsureConn and Close calls race through a one-slot gate
    channel, a mutex and the closing flag.

    Critical sections under the mutex are atomic steps, and so are the channel operations of the
    gate and each call into the NATS client. Time may pass, and a connection may break, between any
    two steps. Do, which resets the closing flag, does not run here. */
module ConnectionGate {

  import opened Options

  type Conn = nat
  type Proc = nat

  /** The result of EnsureConn: a connection or an error. */
  type Answer = Option<Conn>

  datatype Pc =
    // EnsureConn
    | EnsureStart                        // cachedConnection, first look
    | EnsureGate                         // lockConnect
    | EnsureHeld                         // second look, gate held
    | DialStart                          // dialConnection, before its first critical section
    | Connecting                         // nats.Connect
    | Waiting(made: Conn)               // waitForInitialConnection
    | Preparing(made: Conn)             // dialed.JetStream()
    | Installing(made: Conn)            // the second critical section
    | Discarding(made: Conn)            // dialed.Close()
    | Cleanup(result: Answer)            // the deferred reset of connectCancel
    | EnsureUnlock(result: Answer)       // the deferred unlockConnect
    | EnsureDone(result: Answer)
    // Close
    | CloseStart                         // sets closing, reads connectCancel
    | Cancelling(target: Option<Proc>)   // cancelConnect()
    | CloseGate
    | CloseHeld                          // takes the connection, gate held
    | Closing(taken: Option<Conn>)       // nc.Close() unless caller-supplied
    | CloseUnlock
    | CloseDone

  datatype Transport = Transport(
    provided: Option<Option<Conn>>, // FromConn: the caller-supplied connection, which may be nil
    initErr: bool,
    url: bool,                      // a URL to dial is configured
    conn: Option<Conn>,
    closing: bool,
    gate: Option<Proc>,             // who holds the gate
    connectCancel: Option<Proc>,    // whose dial it would cancel
    open: set<Conn>,                // connections that are not closed
    dialed: set<Conn>,              // connections this transport ever dialed
    ended: set<Proc>,               // calls whose own context is nil or has ended
    cancelled: set<Proc>,           // dials whose context was cancelled by Close
    drained: bool                   // some Close has closed what it took
  )

  datatype World = World(t: Transport, procs: map<Proc, Pc>)

  /** `fails`: the step reports failure where it can; `made` is the connection that a successful dial
      returns. */
  datatype Choice = Choice(fails: bool, made: Conn)

  datatype Action =
    | SpawnEnsure(id: Proc)
    | SpawnClose(id: Proc)
    | Move(id: Proc, choice: Choice)
    | Break(c: Conn)                // the connection closes by itself
    | Expire(id: Proc)              // a caller's context ends

  /** cachedConnection: None means that there is nothing to return yet. */
  function Cached(t: Transport): Option<Answer> {
    if t.initErr || t.closing then Some(None)
    else if t.provided.Some? then
      if t.conn.None? || t.conn.value !in t.open then Some(None) else Some(t.conn)
    else if t.conn.Some? && t.conn.value in t.open then Some(t.conn)
    else None
  }

  predicate EnsurePc(pc: Pc) {
    || pc.EnsureStart? || pc.EnsureGate? || pc.EnsureHeld? || pc.DialStart? || pc.Connecting? || pc.Waiting?
    || pc.Preparing? || pc.Installing? || pc.Discarding? || pc.Cleanup? || pc.EnsureUnlock?
  }

  predicate ClosePc(pc: Pc) {
    pc.CloseStart? || pc.Cancelling? || pc.CloseGate? || pc.CloseHeld? || pc.Closing? || pc.CloseUnlock?
  }

  function EnsureStep(t: Transport, id: Proc, pc: Pc, ch: Choice): (Transport, Pc)
    requires EnsurePc(pc)
  {
    match pc
    case EnsureStart =>
      if id in t.ended then (t, EnsureDone(None))
      else if Cached(t).Some? then (t, EnsureDone(Cached(t).value))
      else (t, EnsureGate)
    case EnsureGate =>
      if ch.fails then (t, EnsureDone(None)) else (t.(gate := Some(id)), EnsureHeld)
    case EnsureHeld =>
      if id in t.ended then (t, EnsureUnlock(None))
      else if Cached(t).Some? then (t, EnsureUnlock(Cached(t).value))
      else (t, DialStart)
    case DialStart =>
      if !t.url || t.closing then (t, EnsureUnlock(None))
      else (t.(connectCancel := Some(id)), Connecting)
    case Connecting =>
      if ch.fails then (t, Cleanup(None))
      else (t.(open := t.open + {ch.made}, dialed := t.dialed + {ch.made}), Waiting(ch.made))
    case Waiting(c) => (t, if ch.fails then Discarding(c) else Preparing(c))
    case Preparing(c) => (t, if ch.fails then Discarding(c) else Installing(c))
    case Installing(c) =>
      if t.closing then (t, Discarding(c)) else (t.(conn := Some(c)), Cleanup(Some(c)))
    case Discarding(c) => (t.(open := t.open - {c}), Cleanup(None))
    case Cleanup(r) => (t.(connectCancel := None), EnsureUnlock(r))
    case EnsureUnlock(r) => (t.(gate := None), EnsureDone(r))
  }

  function CloseStep(t: Transport, id: Proc, pc: Pc): (Transport, Pc)
    requires ClosePc(pc)
  {
    match pc
    case CloseStart => (t.(closing := true), Cancelling(t.connectCancel))
    case Cancelling(target) =>
      (if target.Some? then t.(cancelled := t.cancelled + {target.value}) else t, CloseGate)
    case CloseGate => (t.(gate := Some(id)), CloseHeld)
    case CloseHeld => (t.(conn := None), Closing(t.conn))
    case Closing(taken) =>
      (t.(open := if taken.Some? && t.provided.None? then t.open - {taken.value} else t.open, drained := true),
       CloseUnlock)
    case CloseUnlock => (t.(gate := None), CloseDone)
  }

  function Moved(t: Transport, id: Proc, pc: Pc, ch: Choice): (Transport, Pc)
    requires EnsurePc(pc) || ClosePc(pc)
  {
    if EnsurePc(pc) then EnsureStep(t, id, pc, ch) else CloseStep(t, id, pc)
  }

  /** waitForInitialConnection blocks until the connection is up, or it closed, or the caller's
      context or the dial's own has ended. */
  predicate MayGiveUp(t: Transport, id: Proc, made: Conn) {
    id in t.ended || made !in t.open || id in t.cancelled
  }

  predicate Enabled(w: World, a: Action) {
    match a
    case SpawnEnsure(id) => id !in w.procs
    case SpawnClose(id) => id !in w.procs
    case Break(c) => true
    case Expire(id) => true
    case Move(id, ch) =>
      && id in w.procs
      && (EnsurePc(w.procs[id]) || ClosePc(w.procs[id]))
      && (w.procs[id].EnsureGate? ==> if ch.fails then id in w.t.ended else w.t.gate.None?)
      && (w.procs[id].Waiting? && ch.fails ==> MayGiveUp(w.t, id, w.procs[id].made))
      && (w.procs[id].CloseGate? ==> w.t.gate.None?)
      && (w.procs[id].Connecting? && !ch.fails ==>
            ch.made !in w.t.dialed && ch.made !in w.t.open && w.t.provided != Some(Some(ch.made)))
  }

  function Step(w: World, a: Action): World
    requires Enabled(w, a)
  {
    match a
    case SpawnEnsure(id) => w.(procs := w.procs[id := EnsureStart])
    case SpawnClose(id) => w.(procs := w.procs[id := CloseStart])
    case Break(c) => w.(t := w.t.(open := w.t.open - {c}))
    case Expire(id) => w.(t := w.t.(ended := w.t.ended + {id}))
    case Move(id, ch) =>
      var (t', pc') := Moved(w.t, id, w.procs[id], ch);
      World(t', w.procs[id := pc'])
  }

  /** New (nothing yet) or FromConn (a caller-supplied connection). */
  predicate Init(w: World) {
    && w.procs == map[] && !w.t.closing && w.t.gate.None? && w.t.connectCancel.None?
    && w.t.dialed == {} && w.t.cancelled == {} && !w.t.drained
    && w.t.conn == (if w.t.provided.Some? then w.t.provided.value else None)
  }

  ghost predicate Legal(w: World, run: seq<Action>)
    decreases |run|
  {
    run == [] || (Enabled(w, run[0]) && Legal(Step(w, run[0]), run[1..]))
  }

  ghost function Run(w: World, run: seq<Action>): World
    requires Legal(w, run)
    decreases |run|
  {
    if run == [] then w else Run(Step(w, run[0]), run[1..])
  }

  // ---------------------------------------------------------------------------------------
  // Invariant

  predicate Holding(pc: Pc) {
    || pc.EnsureHeld? || pc.DialStart? || pc.Connecting? || pc.Waiting? || pc.Preparing? || pc.Installing?
    || pc.Discarding? || pc.Cleanup? || pc.EnsureUnlock? || pc.CloseHeld? || pc.Closing? || pc.CloseUnlock?
  }

  predicate Dialed(pc: Pc) {
    pc.Waiting? || pc.Preparing? || pc.Installing? || pc.Discarding?
  }

  /** The connection a call holds that is not the transport's current one. */
  function Hands(pc: Pc): Option<Conn> {
    if Dialed(pc) then Some(pc.made)
    else if pc.Closing? then pc.taken
    else None
  }

  predicate Registered(pc: Pc) {
    pc.Connecting? || Dialed(pc) || pc.Cleanup?
  }

  predicate NoCurrent(t: Transport) {
    t.conn.None? || t.conn.value !in t.open
  }

  /** What a call's position says about the transport. */
  ghost predicate PcOk(t: Transport, id: Proc, pc: Pc) {
    && (Holding(pc) <==> t.gate == Some(id))
    && (pc.DialStart? || pc.Connecting? || Dialed(pc) ==>
          NoCurrent(t) && t.provided.None? && !t.initErr && !t.drained)
    && (Dialed(pc) ==> pc.made in t.dialed && t.conn != Some(pc.made))
    && (pc.Cleanup? ==> t.provided.None?)
    && (pc.Closing? ==> t.conn.None?)
    && (pc.Closing? && pc.taken.Some? ==>
          t.provided == Some(pc.taken) || (t.provided.None? && pc.taken.value in t.dialed && !t.drained))
    && (pc.Cancelling? || pc.CloseGate? || pc.CloseHeld? || pc.Closing? || pc.CloseUnlock? || pc.CloseDone? ==> t.closing)
    && (pc.CloseUnlock? || pc.CloseDone? ==> t.drained)
    && (Registered(pc) <==> t.connectCancel == Some(id))
  }

  ghost predicate TransportOk(t: Transport) {
    && (t.provided.Some? ==> t.dialed == {} && (t.conn.None? || Some(t.conn) == t.provided))
    && (t.provided.None? && t.conn.Some? ==> t.conn.value in t.dialed)
    && (t.drained ==> t.closing && t.conn.None?)
  }

  /** Every dialed connection is closed, current, or in the hands of the gate holder. */
  ghost predicate Held(w: World, c: Conn) {
    || c !in w.t.open
    || w.t.conn == Some(c)
    || (w.t.gate.Some? && w.t.gate.value in w.procs && Hands(w.procs[w.t.gate.value]) == Some(c))
  }

  /** While the transport is closing, a dial in progress is or is about to be cancelled. */
  ghost predicate CancelSent(w: World, id: Proc) {
    id in w.t.cancelled || exists q :: q in w.procs && w.procs[q] == Cancelling(Some(id))
  }

  ghost predicate Inv(w: World) {
    && TransportOk(w.t)
    && (forall i :: i in w.procs ==> PcOk(w.t, i, w.procs[i]))
    && (w.t.gate.Some? ==> w.t.gate.value in w.procs)
    && (w.t.connectCancel.Some? ==> w.t.connectCancel.value in w.procs)
    && (forall c :: c in w.t.dialed ==> Held(w, c))
    && (forall i :: i in w.procs && w.t.closing && Registered(w.procs[i]) ==> CancelSent(w, i))
  }

  // ---------------------------------------------------------------------------------------
  // Every step keeps the invariant

  /** What a step of call `id` may do, as far as another call `j` is concerned. */
  ghost predicate Fair(t: Transport, t': Transport, j: Proc) {
    && (t'.gate == Some(j) <==> t.gate == Some(j))
    && (t'.connectCancel == Some(j) <==> t.connectCancel == Some(j))
    && t'.provided == t.provided && t'.initErr == t.initErr && t.dialed <= t'.dialed
    && (t.closing ==> t'.closing) && (t.drained ==> t'.drained)
    && (t.gate == Some(j) ==> t'.conn == t.conn && t'.open <= t.open && t'.drained == t.drained)
  }

  lemma PcStable(t: Transport, t': Transport, j: Proc, pc: Pc)
    requires PcOk(t, j, pc) && Fair(t, t', j)
    ensures PcOk(t', j, pc)
  {
  }

  lemma EnsureFair(t: Transport, id: Proc, pc: Pc, ch: Choice, j: Proc)
    requires EnsurePc(pc) && PcOk(t, id, pc) && j != id
    requires pc.EnsureGate? && !ch.fails ==> t.gate.None?
    requires Registered(pc) || t.connectCancel.None? || !pc.DialStart?
    ensures Fair(t, EnsureStep(t, id, pc, ch).0, j)
  {
  }

  lemma CloseFair(t: Transport, id: Proc, pc: Pc, j: Proc)
    requires ClosePc(pc) && PcOk(t, id, pc) && j != id
    requires pc.CloseGate? ==> t.gate.None?
    ensures Fair(t, CloseStep(t, id, pc).0, j)
  {
  }

  lemma EnsureOwn(t: Transport, id: Proc, pc: Pc, ch: Choice)
    requires EnsurePc(pc) && TransportOk(t) && PcOk(t, id, pc)
    requires pc.EnsureGate? && !ch.fails ==> t.gate.None?
    requires pc.Connecting? && !ch.fails ==> ch.made !in t.dialed && ch.made !in t.open && t.provided != Some(Some(ch.made))
    ensures
      var (t', pc') := EnsureStep(t, id, pc, ch);
      TransportOk(t') && PcOk(t', id, pc')
  {
  }

  lemma CloseOwn(t: Transport, id: Proc, pc: Pc)
    requires ClosePc(pc) && TransportOk(t) && PcOk(t, id, pc)
    requires pc.CloseGate? ==> t.gate.None?
    ensures
      var (t', pc') := CloseStep(t, id, pc);
      TransportOk(t') && PcOk(t', id, pc')
  {
  }

  lemma MovePcs(w: World, id: Proc, ch: Choice)
    requires Inv(w) && Enabled(w, Move(id, ch))
    ensures
      var w' := Step(w, Move(id, ch));
      && TransportOk(w'.t)
      && (forall i :: i in w'.procs ==> PcOk(w'.t, i, w'.procs[i]))
      && (w'.t.gate.Some? ==> w'.t.gate.value in w'.procs)
      && (w'.t.connectCancel.Some? ==> w'.t.connectCancel.value in w'.procs)
  {
    var pc := w.procs[id];
    assert PcOk(w.t, id, pc);
    if w.t.connectCancel.Some? {
      assert PcOk(w.t, w.t.connectCancel.value, w.procs[w.t.connectCancel.value]);
    }
    if EnsurePc(pc) {
      EnsureOwn(w.t, id, pc, ch);
    } else {
      CloseOwn(w.t, id, pc);
    }
    var (t', pc') := Moved(w.t, id, pc, ch);
    forall i | i in w.procs && i != id ensures PcOk(t', i, w.procs[i]) {
      if EnsurePc(pc) {
        EnsureFair(w.t, id, pc, ch, i);
      } else {
        CloseFair(w.t, id, pc, i);
      }
      PcStable(w.t, t', i, w.procs[i]);
    }
  }

  /** As far as the transport and one call can tell, a connection is closed, current, or in that
      call's hands. */
  predicate InSight(t: Transport, pc: Pc, c: Conn) {
    c !in t.open || t.conn == Some(c) || Hands(pc) == Some(c)
  }

  lemma EnsureInSight(t: Transport, id: Proc, pc: Pc, ch: Choice, c: Conn)
    requires EnsurePc(pc) && PcOk(t, id, pc) && (c in t.dialed ==> InSight(t, pc, c))
    ensures var (t', pc') := EnsureStep(t, id, pc, ch); c in t'.dialed ==> InSight(t', pc', c)
  {
  }

  lemma CloseInSight(t: Transport, id: Proc, pc: Pc, c: Conn)
    requires ClosePc(pc) && PcOk(t, id, pc) && TransportOk(t) && c in t.dialed && InSight(t, pc, c)
    ensures var (t', pc') := CloseStep(t, id, pc); InSight(t', pc', c)
  {
  }

  /** A call that does not hold the gate touches no connection. */
  lemma HandsOff(t: Transport, id: Proc, pc: Pc, ch: Choice)
    requires EnsurePc(pc) || ClosePc(pc)
    requires PcOk(t, id, pc) && !Holding(pc)
    ensures var t' := Moved(t, id, pc, ch).0; t'.conn == t.conn && t'.open == t.open && t'.dialed == t.dialed
    ensures !Holding(Moved(t, id, pc, ch).1) ==> Moved(t, id, pc, ch).0.gate == t.gate
  {
  }

  /** No connection is lost from sight. */
  lemma MoveHeld(w: World, id: Proc, ch: Choice, c: Conn)
    requires Inv(w) && Enabled(w, Move(id, ch)) && c in Step(w, Move(id, ch)).t.dialed
    ensures Held(Step(w, Move(id, ch)), c)
  {
    var pc := w.procs[id];
    assert PcOk(w.t, id, pc);
    assert c in w.t.dialed ==> Held(w, c);
    if Holding(pc) {
      if EnsurePc(pc) {
        EnsureInSight(w.t, id, pc, ch, c);
      } else {
        CloseInSight(w.t, id, pc, c);
      }
    } else {
      HandsOff(w.t, id, pc, ch);
    }
  }

  /** How closing and cancellation come about. */
  lemma MoveCancels(t: Transport, id: Proc, pc: Pc, ch: Choice)
    requires EnsurePc(pc) || ClosePc(pc)
    ensures
      var (t', pc') := Moved(t, id, pc, ch);
      && t.cancelled <= t'.cancelled
      && (t'.closing && !t.closing ==> pc' == Cancelling(t.connectCancel))
      && (Registered(pc') && !Registered(pc) ==> !t'.closing)
      && (pc.Cancelling? && pc.target.Some? ==> pc.target.value in t'.cancelled)
  {
  }

  /** A dial that is running when the transport starts closing gets its cancellation. */
  lemma MoveCancel(w: World, id: Proc, ch: Choice, i: Proc)
    requires Inv(w) && Enabled(w, Move(id, ch))
    requires
      var w' := Step(w, Move(id, ch));
      i in w'.procs && w'.t.closing && Registered(w'.procs[i])
    ensures CancelSent(Step(w, Move(id, ch)), i)
  {
    var w' := Step(w, Move(id, ch));
    MoveCancels(w.t, id, w.procs[id], ch);
    assert Registered(w.procs[i]);
    assert PcOk(w.t, i, w.procs[i]);
    if !w.t.closing {
      assert w'.procs[id] == Cancelling(Some(i));
    } else if i !in w.t.cancelled {
      assert CancelSent(w, i);
      var q :| q in w.procs && w.procs[q] == Cancelling(Some(i));
      assert q != id ==> w'.procs[q] == Cancelling(Some(i));
    }
  }

  lemma StepInv(w: World, a: Action)
    requires Inv(w) && Enabled(w, a)
    ensures Inv(Step(w, a))
  {
    var w' := Step(w, a);
    match a
    case Move(id, ch) =>
      MovePcs(w, id, ch);
      forall c | c in w'.t.dialed ensures Held(w', c) {
        MoveHeld(w, id, ch, c);
      }
      forall i | i in w'.procs && w'.t.closing && Registered(w'.procs[i]) ensures CancelSent(w', i) {
        MoveCancel(w, id, ch, i);
      }
    case SpawnEnsure(id) => SpawnInv(w, id, EnsureStart);
    case SpawnClose(id) => SpawnInv(w, id, CloseStart);
    case Break(c) => BreakInv(w, c);
    case Expire(id) => ExpireInv(w, id);
  }

  lemma SpawnInv(w: World, id: Proc, pc: Pc)
    requires Inv(w) && id !in w.procs && (pc.EnsureStart? || pc.CloseStart?)
    ensures Inv(w.(procs := w.procs[id := pc]))
  {
    var w' := w.(procs := w.procs[id := pc]);
    forall c | c in w'.t.dialed ensures Held(w', c) {
      assert Held(w, c);
    }
    forall i | i in w'.procs && w'.t.closing && Registered(w'.procs[i]) ensures CancelSent(w', i) {
      assert CancelSent(w, i);
      if i !in w.t.cancelled {
        var q :| q in w.procs && w.procs[q] == Cancelling(Some(i));
        assert w'.procs[q] == Cancelling(Some(i));
      }
    }
  }

  lemma BreakInv(w: World, c: Conn)
    requires Inv(w)
    ensures Inv(w.(t := w.t.(open := w.t.open - {c})))
  {
    var w' := w.(t := w.t.(open := w.t.open - {c}));
    forall i | i in w.procs ensures PcOk(w'.t, i, w.procs[i]) {
      PcStable(w.t, w'.t, i, w.procs[i]);
    }
    forall d | d in w'.t.dialed ensures Held(w', d) {
      assert Held(w, d);
    }
    forall i | i in w'.procs && w'.t.closing && Registered(w'.procs[i]) ensures CancelSent(w', i) {
      assert CancelSent(w, i);
    }
  }

  lemma ExpireInv(w: World, id: Proc)
    requires Inv(w)
    ensures Inv(w.(t := w.t.(ended := w.t.ended + {id})))
  {
    var w' := w.(t := w.t.(ended := w.t.ended + {id}));
    forall i | i in w.procs ensures PcOk(w'.t, i, w.procs[i]) {
      PcStable(w.t, w'.t, i, w.procs[i]);
    }
    forall d | d in w'.t.dialed ensures Held(w', d) {
      assert Held(w, d);
    }
    forall i | i in w'.procs && w'.t.closing && Registered(w'.procs[i]) ensures CancelSent(w', i) {
      assert CancelSent(w, i);
    }
  }

  lemma {:induction false} RunInv(w: World, run: seq<Action>)
    requires Inv(w) && Legal(w, run)
    ensures Inv(Run(w, run))
    decreases |run|
  {
    if run != [] {
      StepInv(w, run[0]);
      RunInv(Step(w, run[0]), run[1..]);
    }
  }

  // ---------------------------------------------------------------------------------------
  // Theorems

  /** In every interleaving at most one dialed connection is open, and each is closed, current, or in
      the hands of the one call that holds the gate. */
  lemma OneOpenConnection(w0: World, run: seq<Action>, c1: Conn, c2: Conn)
    requires Init(w0) && Legal(w0, run)
    requires c1 in Run(w0, run).t.dialed && c2 in Run(w0, run).t.dialed
    ensures Held(Run(w0, run), c1)
    ensures c1 in Run(w0, run).t.open && c2 in Run(w0, run).t.open ==> c1 == c2
  {
    RunInv(w0, run);
    var w := Run(w0, run);
    assert Held(w, c1) && Held(w, c2);
    if w.t.gate.Some? {
      assert PcOk(w.t, w.t.gate.value, w.procs[w.t.gate.value]);
    }
  }

  /** How a transport may look after any number of steps, once it is closing or was built on a
      caller-supplied connection; `broken` are the connections that closed by themselves. */
  ghost predicate Settled(t: Transport, t': Transport, broken: set<Conn>) {
    && t'.provided == t.provided
    && (t.closing ==> t'.closing)
    && (t.closing || t.provided.Some? ==> t'.conn == t.conn || t'.conn.None?)
    && (t.provided.Some? ==> t'.dialed == {} && t'.open <= t.open && t.open <= t'.open + broken)
  }

  lemma StepSettled(w: World, a: Action)
    requires Inv(w) && Enabled(w, a)
    ensures Settled(w.t, Step(w, a).t, if a.Break? then {a.c} else {})
  {
    if a.Move? {
      assert PcOk(w.t, a.id, w.procs[a.id]);
    }
  }

  function Broken(run: seq<Action>): set<Conn> {
    if run == [] then {} else (if run[0].Break? then {run[0].c} else {}) + Broken(run[1..])
  }

  /** Over any continuation: nothing is installed once closing is set, and a caller-supplied
      connection is never replaced by another, nor closed unless it breaks by itself. */
  lemma {:induction false} NoInstallAfterClosing(w: World, run: seq<Action>)
    requires Inv(w) && Legal(w, run)
    ensures Settled(w.t, Run(w, run).t, Broken(run))
    decreases |run|
  {
    if run != [] {
      StepInv(w, run[0]);
      StepSettled(w, run[0]);
      NoInstallAfterClosing(Step(w, run[0]), run[1..]);
    }
  }

  /** Once some Close has returned, no dialed connection is open and none is current, then and in
      every later state. */
  lemma ClosedForGood(w0: World, run: seq<Action>, id: Proc, c: Conn)
    requires Init(w0) && Legal(w0, run)
    requires id in Run(w0, run).procs && Run(w0, run).procs[id].CloseDone?
    ensures Run(w0, run).t.conn.None?
    ensures c in Run(w0, run).t.dialed ==> c !in Run(w0, run).t.open
  {
    RunInv(w0, run);
    var w := Run(w0, run);
    assert PcOk(w.t, id, w.procs[id]);
    assert c in w.t.dialed ==> Held(w, c);
    if w.t.gate.Some? {
      assert PcOk(w.t, w.t.gate.value, w.procs[w.t.gate.value]);
    }
  }

  /** A Close never waits for a dial that nobody cancels: whenever the transport is closing while a
      dial runs, that dial's context is cancelled or a Close is about to cancel it. */
  lemma NoLostCancellation(w0: World, run: seq<Action>, id: Proc)
    requires Init(w0) && Legal(w0, run)
    requires id in Run(w0, run).procs && Registered(Run(w0, run).procs[id]) && Run(w0, run).t.closing
    ensures CancelSent(Run(w0, run), id)
  {
    RunInv(w0, run);
  }
}
