/** What holds over every run of deliveries, crashes and failed requests. */
module BrokerTheorems {
  import opened Options
  import opened Delivery
  import opened Broker

  // ---------------------------------------------------------------------------------------
  // Execution bound

  /** The action ran once for each delivery recorded, and only for deliveries within the limit. */
  ghost predicate SourceOk(b: ConsumerBinding, src: Source) {
    && src.runs == |src.ran|
    && src.delivered <= MAX_UINT64
    && forall n :: n in src.ran ==> 1 <= n <= src.delivered && !MaxDeliverExceeded(n, b.maxDeliver)
  }

  /** A handler that has not run the action yet; one about to run it is within the limit. */
  ghost predicate HandlerOk(b: ConsumerBinding, src: Source, h: Handler) {
    && 1 <= h.number <= src.delivered
    && Bounded(h.pc)
    && (h.pc.Start? || h.pc.Executing? ==> h.number !in src.ran)
    && (h.pc.Executing? ==> h.pc.deliveries == h.number && !MaxDeliverExceeded(h.number, b.maxDeliver))
  }

  ghost predicate HandlersOk(b: ConsumerBinding, s: State) {
    forall i :: i in s.handlers ==>
      s.handlers[i].sequence in s.server.sources && HandlerOk(b, s.server.sources[s.handlers[i].sequence], s.handlers[i])
  }

  ghost predicate SourcesOk(b: ConsumerBinding, v: Server) {
    forall q :: q in v.sources ==> SourceOk(b, v.sources[q])
  }

  ghost predicate DistinctDeliveries(handlers: map<nat, Handler>) {
    forall i, j :: i in handlers && j in handlers && i != j && handlers[i].sequence == handlers[j].sequence
      ==> handlers[i].number != handlers[j].number
  }

  ghost predicate ExecInv(b: ConsumerBinding, s: State) {
    SourcesOk(b, s.server) && HandlersOk(b, s) && DistinctDeliveries(s.handlers)
  }

  /** What a step of the handler of delivery `n` may do to a message. */
  ghost predicate Touched(src: Source, src': Source, n: nat) {
    && src'.msg == src.msg && src'.delivered == src.delivered
    && (src'.ran == src.ran || src'.ran == src.ran + {n})
  }

  ghost predicate Steady(v: Server, v': Server, q: nat, n: nat) {
    && v'.sources.Keys == v.sources.Keys
    && forall k :: k in v.sources ==>
         Touched(v.sources[k], v'.sources[k], n) && (k != q ==> v'.sources[k].ran == v.sources[k].ran)
  }

  /** A step that changes nothing the execution bound talks about. */
  ghost predicate SameRuns(src: Source, src': Source) {
    src'.msg == src.msg && src'.delivered == src.delivered && src'.ran == src.ran && src'.runs == src.runs
  }

  lemma RunActionOk(b: ConsumerBinding, src: Source, n: nat, ok: bool)
    requires SourceOk(b, src) && 1 <= n <= src.delivered && n !in src.ran && !MaxDeliverExceeded(n, b.maxDeliver)
    ensures SourceOk(b, RunAction(src, n, ok)) && Touched(src, RunAction(src, n, ok), n)
  {
  }

  lemma SettleSameRuns(b: ConsumerBinding, v: Server, h: Handler, effect: Effect, env: Env)
    requires h.sequence in v.sources && !effect.Execute?
    ensures
      var v' := Apply(b, v, h, effect, env);
      && v'.sources.Keys == v.sources.Keys
      && forall k :: k in v.sources ==> SameRuns(v.sources[k], v'.sources[k])
  {
  }

  /** One handler's step keeps the bound and does not disturb other deliveries. */
  lemma HandleSteady(b: ConsumerBinding, v: Server, h: Handler, env: Env)
    requires SourcesOk(b, v) && h.sequence in v.sources && HandlerOk(b, v.sources[h.sequence], h)
    requires Working(v, h) && !h.pc.Done? && Honest(b, h, env)
    ensures SourcesOk(b, HandleOne(b, v, h, env).0)
    ensures Steady(v, HandleOne(b, v, h, env).0, h.sequence, h.number)
  {
    var (effect, next) := HandlerStep(b, v.sources[h.sequence].msg, h.pc, env);
    var v' := HandleOne(b, v, h, env).0;
    if effect == Some(Execute) {
      RunActionOk(b, v.sources[h.sequence], h.number, env.exec.None?);
    } else if effect.Some? {
      SettleSameRuns(b, v, h, effect.value, env);
    }
  }

  lemma HandlerNext(b: ConsumerBinding, v: Server, h: Handler, env: Env)
    requires !b.ackPolicy.AckNone? && h.sequence in v.sources && HandlerOk(b, v.sources[h.sequence], h)
    requires Working(v, h) && !h.pc.Done? && Honest(b, h, env)
    ensures
      var (v', h') := HandleOne(b, v, h, env);
      && h'.sequence == h.sequence && h'.number == h.number
      && h.sequence in v'.sources && HandlerOk(b, v'.sources[h.sequence], h')
  {
    var (effect, next) := HandlerStep(b, v.sources[h.sequence].msg, h.pc, env);
    assert Bounded(next) && !next.Start?;
    if next.Executing? {
      assert effect.None?;
    } else if effect.Some? && !effect.value.Execute? {
      SettleSameRuns(b, v, h, effect.value, env);
    }
  }

  lemma HandleExec(b: ConsumerBinding, s: State, id: nat, env: Env)
    requires !b.ackPolicy.AckNone? && ExecInv(b, s) && Enabled(b, s, Handle(id, env))
    ensures ExecInv(b, Step(b, s, Handle(id, env)))
  {
    var h := s.handlers[id];
    var s' := Step(b, s, Handle(id, env));
    HandleSteady(b, s.server, h, env);
    HandlerNext(b, s.server, h, env);
    forall i | i in s'.handlers
      ensures s'.handlers[i].sequence in s'.server.sources
      ensures HandlerOk(b, s'.server.sources[s'.handlers[i].sequence], s'.handlers[i])
    {
      if i != id {
        var g := s.handlers[i];
        assert HandlerOk(b, s.server.sources[g.sequence], g);
        assert Touched(s.server.sources[g.sequence], s'.server.sources[g.sequence], h.number);
      }
    }
  }

  lemma DeliverExec(b: ConsumerBinding, s: State, q: nat, id: nat)
    requires ExecInv(b, s) && Enabled(b, s, Deliver(q, id))
    ensures ExecInv(b, Step(b, s, Deliver(q, id)))
  {
    var s' := Step(b, s, Deliver(q, id));
    assert SourceOk(b, s.server.sources[q]);
    forall i | i in s.handlers
      ensures s'.handlers[i].sequence in s'.server.sources
      ensures HandlerOk(b, s'.server.sources[s'.handlers[i].sequence], s'.handlers[i])
    {
      assert HandlerOk(b, s.server.sources[s.handlers[i].sequence], s.handlers[i]);
    }
  }

  lemma ExecStep(b: ConsumerBinding, s: State, a: Action)
    requires !b.ackPolicy.AckNone? && ExecInv(b, s) && Enabled(b, s, a)
    ensures ExecInv(b, Step(b, s, a))
  {
    match a
    case Handle(id, env) => HandleExec(b, s, id, env);
    case Deliver(q, id) => DeliverExec(b, s, q, id);
    case Arrive(q, msg) =>
    case Crash(id) =>
    case Forget(m) =>
    case Foreign(q, letter) =>
  }

  lemma {:induction false} ExecRun(b: ConsumerBinding, s: State, run: seq<Action>, h: (State, Action) -> bool)
    requires !b.ackPolicy.AckNone? && ExecInv(b, s) && Legal(b, s, run, h)
    ensures ExecInv(b, Run(b, s, run, h))
    decreases |run|
  {
    if run != [] {
      ExecStep(b, s, run[0]);
      ExecRun(b, Step(b, s, run[0]), run[1..], h);
    }
  }

  lemma {:induction false} SetBelow(s: set<nat>, limit: nat)
    requires forall n :: n in s ==> 1 <= n <= limit
    ensures |s| <= limit
    decreases limit
  {
    if limit == 0 {
      assert s == {};
    } else {
      SetBelow(s - {limit}, limit - 1);
      assert s <= (s - {limit}) + {limit};
      assert |s| <= |s - {limit}| + 1;
    }
  }

  /** Over every run, whatever is redelivered, crashes or fails, the action runs at most MaxDeliver
      times per message under any acknowledging policy. */
  lemma ExecutionBound(b: ConsumerBinding, run: seq<Action>, q: nat)
    requires !b.ackPolicy.AckNone? && Legal(b, EMPTY, run, Anything)
    requires q in Run(b, EMPTY, run, Anything).server.sources
    ensures Run(b, EMPTY, run, Anything).server.sources[q].runs <= (if b.maxDeliver <= 0 then 0 else b.maxDeliver)
  {
    ExecRun(b, EMPTY, run, Anything);
    var src := Run(b, EMPTY, run, Anything).server.sources[q];
    assert SourceOk(b, src);
    SetBelow(src.ran, if b.maxDeliver <= 0 then 0 else b.maxDeliver);
  }

  // ---------------------------------------------------------------------------------------
  // No message is lost

  /** The letter says truly when the message was given up: at the limit because the action failed, or
      past it because the limit had been exceeded. */
  predicate SaysWhy(b: ConsumerBinding, letter: DeadLetter) {
    && MaxDeliverReached(letter.deliveries, b.maxDeliver)
    && (letter.cause.LimitExceeded? <==> MaxDeliverExceeded(letter.deliveries, b.maxDeliver))
  }

  ghost predicate LetterOf(b: ConsumerBinding, v: Server, st: Stored, q: nat) {
    && q in v.sources && st.id == MsgId(b.stream, q)
    && Carries(b, v.sources[q].msg, st.letter) && SaysWhy(b, st.letter)
  }

  ghost predicate Genuine(b: ConsumerBinding, v: Server, st: Stored) {
    exists q :: LetterOf(b, v, st, q)
  }

  /** Message q's dead letter is stored. */
  ghost predicate Lettered(b: ConsumerBinding, v: Server, q: nat) {
    exists k :: 0 <= k < |v.dlq| && LetterOf(b, v, v.dlq[k], q)
  }

  /** Everything in the dead-letter stream is some message's letter, and the window only remembers
      what is stored. */
  ghost predicate DlqOk(b: ConsumerBinding, v: Server) {
    && (forall k :: 0 <= k < |v.dlq| ==> Genuine(b, v, v.dlq[k]))
    && (forall id :: id in v.window ==> exists k :: 0 <= k < |v.dlq| && v.dlq[k].id == id)
  }

  ghost predicate Accounted(b: ConsumerBinding, v: Server, q: nat)
    requires q in v.sources
  {
    match v.sources[q].status
    case Pending => true
    case Acked => v.sources[q].succeeded
    case Terminated => Lettered(b, v, q)
  }

  /** A consumer that acknowledges all messages up to one has, at a limit of one, none behind it. */
  ghost predicate Queued(b: ConsumerBinding, v: Server) {
    b.ackPolicy.AckAll? ==>
      forall k, q :: k in v.sources && q in v.sources && k < q && v.sources[q].delivered > 0 ==>
        !v.sources[k].status.Pending?
  }

  ghost predicate HandlerBacked(b: ConsumerBinding, v: Server, h: Handler) {
    && h.sequence in v.sources && v.sources[h.sequence].delivered > 0
    && (h.pc.Executing? ==> !MaxDeliverExceeded(h.pc.deliveries, b.maxDeliver))
    && (h.pc.Publishing? ==>
          && MaxDeliverReached(h.pc.deliveries, b.maxDeliver)
          && (h.pc.cause.LimitExceeded? <==> MaxDeliverExceeded(h.pc.deliveries, b.maxDeliver)))
    && (h.pc.Acking? ==> v.sources[h.sequence].succeeded)
    && (h.pc.Terming? ==> h.pc.published && Lettered(b, v, h.sequence))
  }

  ghost predicate LossInv(b: ConsumerBinding, s: State) {
    && DlqOk(b, s.server) && Queued(b, s.server)
    && (forall q :: q in s.server.sources ==> Accounted(b, s.server, q))
    && (forall i :: i in s.handlers ==> HandlerBacked(b, s.server, s.handlers[i]))
  }

  predicate DeadLettering(b: ConsumerBinding) {
    b.deadLetter != "" && (b.ackPolicy.AckExplicit? || (b.ackPolicy.AckAll? && b.maxAckPending == 1))
  }

  /** Nothing stored is lost, no message changes, no success is forgotten. */
  ghost predicate Keeps(v: Server, v': Server) {
    && v.dlq <= v'.dlq
    && v.sources.Keys <= v'.sources.Keys
    && forall q :: q in v.sources ==>
         && v'.sources[q].msg == v.sources[q].msg && (v.sources[q].succeeded ==> v'.sources[q].succeeded)
         && v.sources[q].delivered <= v'.sources[q].delivered
  }

  lemma LetteredStays(b: ConsumerBinding, v: Server, v': Server, q: nat)
    requires Keeps(v, v') && Lettered(b, v, q)
    ensures Lettered(b, v', q)
  {
    var k :| 0 <= k < |v.dlq| && LetterOf(b, v, v.dlq[k], q);
    assert LetterOf(b, v', v'.dlq[k], q);
  }

  lemma BackedStays(b: ConsumerBinding, v: Server, v': Server, h: Handler)
    requires Keeps(v, v') && HandlerBacked(b, v, h)
    ensures HandlerBacked(b, v', h)
  {
    if h.pc.Terming? {
      LetteredStays(b, v, v', h.sequence);
    }
  }

  lemma DlqStays(b: ConsumerBinding, v: Server, v': Server)
    requires DlqOk(b, v) && Keeps(v, v') && v'.dlq == v.dlq && v'.window <= v.window
    ensures DlqOk(b, v')
  {
    forall k | 0 <= k < |v'.dlq| ensures Genuine(b, v', v'.dlq[k]) {
      assert Genuine(b, v, v.dlq[k]);
      var q :| LetterOf(b, v, v.dlq[k], q);
      assert LetterOf(b, v', v'.dlq[k], q);
    }
  }

  /** Storing a letter of message q: afterwards q's letter is stored, whether this copy was kept or
      dropped as a duplicate. */
  lemma StoreOk(b: ConsumerBinding, v: Server, q: nat, letter: DeadLetter)
    requires DlqOk(b, v) && q in v.sources && Carries(b, v.sources[q].msg, letter) && SaysWhy(b, letter)
    ensures
      var v' := StoreLetter(v, MsgId(b.stream, q), letter);
      DlqOk(b, v') && Lettered(b, v', q) && Keeps(v, v') && v'.sources == v.sources
  {
    var id := MsgId(b.stream, q);
    var v' := StoreLetter(v, id, letter);
    if id in v.window {
      var k :| 0 <= k < |v.dlq| && v.dlq[k].id == id;
      assert Genuine(b, v, v.dlq[k]);
      var q' :| LetterOf(b, v, v.dlq[k], q');
      MsgIdInjective(b.stream, q, b.stream, q');
      assert LetterOf(b, v, v.dlq[k], q);
    } else {
      assert LetterOf(b, v', v'.dlq[|v.dlq|], q);
      forall k | 0 <= k < |v'.dlq| ensures Genuine(b, v', v'.dlq[k]) {
        if k < |v.dlq| {
          assert Genuine(b, v, v.dlq[k]);
          var q0 :| LetterOf(b, v, v.dlq[k], q0);
          assert LetterOf(b, v', v'.dlq[k], q0);
        }
      }
      forall i | i in v'.window ensures exists k :: 0 <= k < |v'.dlq| && v'.dlq[k].id == i {
        if i == id {
          assert v'.dlq[|v.dlq|].id == i;
        } else {
          var k :| 0 <= k < |v.dlq| && v.dlq[k].id == i;
          assert v'.dlq[k].id == i;
        }
      }
    }
  }

  /** An acknowledgement settles its own message and no other. */
  lemma AckSettlesOne(b: ConsumerBinding, v: Server, q: nat)
    requires DeadLettering(b) && Queued(b, v) && q in v.sources && v.sources[q].delivered > 0
    ensures forall k :: k in v.sources && k != q ==> SettleAck(b, v.sources, q)[k] == v.sources[k]
  {
  }

  lemma ApplyQueued(b: ConsumerBinding, v: Server, h: Handler, effect: Effect, env: Env)
    requires Queued(b, v) && h.sequence in v.sources
    ensures Queued(b, Apply(b, v, h, effect, env))
  {
  }

  /** What a settlement leaves of a message: its own, settled for a reason, or unchanged. */
  lemma SettleAccounts(b: ConsumerBinding, v: Server, h: Handler, effect: Effect, env: Env)
    requires DeadLettering(b) && Queued(b, v) && HandlerBacked(b, v, h)
    requires effect.Ack? ==> h.pc.Acking?
    requires effect.Term? ==> h.pc.Terming?
    requires forall q :: q in v.sources ==> Accounted(b, v, q)
    requires !effect.Publish?
    ensures
      var v' := Apply(b, v, h, effect, env);
      && v'.sources.Keys == v.sources.Keys
      && forall q :: q in v.sources ==>
           && (v'.sources[q].status.Acked? ==> v'.sources[q].succeeded)
           && (v'.sources[q].status.Terminated? ==> Lettered(b, v, q))
  {
    if effect.Ack? {
      AckSettlesOne(b, v, h.sequence);
    }
  }

  lemma ApplyKeeps(b: ConsumerBinding, v: Server, h: Handler, effect: Effect, env: Env)
    requires h.sequence in v.sources
    ensures Keeps(v, Apply(b, v, h, effect, env))
  {
  }

  /** The effects of one step on the accounting. */
  lemma ApplyAccounts(b: ConsumerBinding, v: Server, h: Handler, effect: Effect, env: Env)
    requires DeadLettering(b) && DlqOk(b, v) && HandlerBacked(b, v, h) && Honest(b, h, env)
    requires Queued(b, v) && forall q :: q in v.sources ==> Accounted(b, v, q)
    requires effect.Ack? ==> h.pc.Acking?
    requires effect.Term? ==> h.pc.Terming?
    requires effect.Publish? ==> effect.id == MsgId(b.stream, h.sequence)
    requires effect.Publish? ==> Carries(b, v.sources[h.sequence].msg, effect.letter) && SaysWhy(b, effect.letter)
    ensures
      var v' := Apply(b, v, h, effect, env);
      && DlqOk(b, v') && Keeps(v, v') && Queued(b, v')
      && (forall q :: q in v'.sources ==> Accounted(b, v', q))
      && (effect.Publish? && !env.publish.Refused? ==> Lettered(b, v', h.sequence))
  {
    var v' := Apply(b, v, h, effect, env);
    ApplyQueued(b, v, h, effect, env);
    ApplyKeeps(b, v, h, effect, env);
    if effect.Publish? && !env.publish.Refused? {
      StoreOk(b, v, h.sequence, effect.letter);
    } else {
      DlqStays(b, v, v');
    }
    if !effect.Publish? {
      SettleAccounts(b, v, h, effect, env);
    }
    forall q | q in v'.sources ensures Accounted(b, v', q) {
      assert Accounted(b, v, q);
      if Lettered(b, v, q) {
        LetteredStays(b, v, v', q);
      }
    }
  }

  /** A dead letter is published truthfully, and a handler's next position is backed by what it did. */
  lemma HandlerFacts(b: ConsumerBinding, v: Server, h: Handler, env: Env)
    requires DeadLettering(b) && HandlerBacked(b, v, h) && Working(v, h) && !h.pc.Done? && Honest(b, h, env)
    ensures
      var (effect, next) := HandlerStep(b, v.sources[h.sequence].msg, h.pc, env);
      && (effect.Some? && effect.value.Ack? ==> h.pc.Acking?)
      && (effect.Some? && effect.value.Term? ==> h.pc.Terming?)
      && (effect.Some? && effect.value.Publish? ==>
            && effect.value.id == MsgId(b.stream, h.sequence)
            && Carries(b, v.sources[h.sequence].msg, effect.value.letter) && SaysWhy(b, effect.value.letter))
      && (next.Acking? ==> effect == Some(Execute) && env.exec.None?)
      && (next.Terming? ==> next.published && effect.Some? && effect.value.Publish? && env.publish.Ok?)
      && (next.Executing? ==> !MaxDeliverExceeded(next.deliveries, b.maxDeliver))
      && (next.Publishing? ==>
            && MaxDeliverReached(next.deliveries, b.maxDeliver)
            && (next.cause.LimitExceeded? <==> MaxDeliverExceeded(next.deliveries, b.maxDeliver)))
  {
  }

  lemma HandleAccounts(b: ConsumerBinding, s: State, id: nat, env: Env)
    requires DeadLettering(b) && LossInv(b, s) && Enabled(b, s, Handle(id, env))
    ensures LossInv(b, Step(b, s, Handle(id, env)))
  {
    var h, v := s.handlers[id], s.server;
    var s' := Step(b, s, Handle(id, env));
    var effect := HandlerStep(b, v.sources[h.sequence].msg, h.pc, env).0;
    assert HandlerBacked(b, v, h);
    HandlerFacts(b, v, h, env);
    if effect.Some? {
      ApplyAccounts(b, v, h, effect.value, env);
    }
    assert Keeps(v, s'.server);
    forall i | i in s'.handlers ensures HandlerBacked(b, s'.server, s'.handlers[i]) {
      if i != id {
        BackedStays(b, v, s'.server, s.handlers[i]);
      }
    }
  }

  /** At a limit of one, a first delivery finds every earlier message settled. */
  lemma QueueStays(b: ConsumerBinding, s: State, a: Action)
    requires DeadLettering(b) && Queued(b, s.server) && Enabled(b, s, a) && !a.Handle?
    ensures Queued(b, Step(b, s, a).server)
  {
    var v := s.server;
    if b.ackPolicy.AckAll? && a.Deliver? && v.sources[a.sequence].delivered == 0 {
      assert Outstanding(v) == {};
      forall k | k in v.sources && k < a.sequence ensures !v.sources[k].status.Pending? {
        assert k !in Outstanding(v);
      }
    }
  }

  /** A step that leaves the dead-letter stream alone and settles nothing. */
  lemma QuietAccounts(b: ConsumerBinding, s: State, a: Action)
    requires DeadLettering(b) && LossInv(b, s) && Enabled(b, s, a) && !a.Handle? && !a.Foreign?
    ensures LossInv(b, Step(b, s, a))
  {
    var v, v' := s.server, Step(b, s, a).server;
    assert Keeps(v, v');
    DlqStays(b, v, v');
    QueueStays(b, s, a);
    forall q | q in v'.sources ensures Accounted(b, v', q) {
      if q in v.sources {
        assert Accounted(b, v, q);
        if Lettered(b, v, q) {
          LetteredStays(b, v, v', q);
        }
      }
    }
    forall i | i in s.handlers ensures HandlerBacked(b, v', s.handlers[i]) {
      BackedStays(b, v, v', s.handlers[i]);
    }
  }

  lemma {:induction false} LossRun(b: ConsumerBinding, s: State, run: seq<Action>)
    requires DeadLettering(b) && LossInv(b, s) && Legal(b, s, run, OnlyDurable)
    ensures LossInv(b, Run(b, s, run, OnlyDurable))
    decreases |run|
  {
    if run != [] {
      if run[0].Handle? {
        HandleAccounts(b, s, run[0].id, run[0].env);
      } else {
        QuietAccounts(b, s, run[0]);
      }
      LossRun(b, Step(b, s, run[0]), run[1..]);
    }
  }

  /** With a dead-letter subject, one durable per stream, and either explicit acknowledgement or one
      outstanding message at a time, in every run a message is redeliverable, or acknowledged after
      its action succeeded, or terminated with its dead letter stored. */
  lemma NoMessageLoss(b: ConsumerBinding, run: seq<Action>, q: nat)
    requires DeadLettering(b) && Legal(b, EMPTY, run, OnlyDurable)
    requires q in Run(b, EMPTY, run, OnlyDurable).server.sources
    ensures
      var v := Run(b, EMPTY, run, OnlyDurable).server;
      || v.sources[q].status.Pending?
      || (v.sources[q].status.Acked? && v.sources[q].succeeded)
      || (v.sources[q].status.Terminated? && Lettered(b, v, q))
  {
    LossRun(b, EMPTY, run);
    assert Accounted(b, Run(b, EMPTY, run, OnlyDurable).server, q);
  }

  // ---------------------------------------------------------------------------------------
  // Dead-letter deduplication

  ghost predicate OnceInv(v: Server) {
    && (forall k :: 0 <= k < |v.dlq| ==> v.dlq[k].id in v.window)
    && (forall i, j :: 0 <= i < j < |v.dlq| ==> v.dlq[i].id != v.dlq[j].id)
  }

  lemma OnceStep(b: ConsumerBinding, s: State, a: Action)
    requires OnceInv(s.server) && Enabled(b, s, a) && WithinWindow(s, a)
    ensures OnceInv(Step(b, s, a).server)
  {
    if a.Handle? {
      var h := s.handlers[a.id];
      var (effect, next) := HandlerStep(b, s.server.sources[h.sequence].msg, h.pc, a.env);
      assert effect.None? || !effect.value.Publish? ==>
        Step(b, s, a).server.dlq == s.server.dlq && Step(b, s, a).server.window == s.server.window;
    }
  }

  lemma {:induction false} OnceRun(b: ConsumerBinding, s: State, run: seq<Action>)
    requires OnceInv(s.server) && Legal(b, s, run, WithinWindow)
    ensures OnceInv(Run(b, s, run, WithinWindow).server)
    decreases |run|
  {
    if run != [] {
      OnceStep(b, s, run[0]);
      OnceRun(b, Step(b, s, run[0]), run[1..]);
    }
  }

  /** Within the dedup window the dead-letter stream holds at most one letter per source message,
      however often a publish succeeds and the termination after it fails. */
  lemma OneLetterPerMessage(b: ConsumerBinding, run: seq<Action>, q1: nat, q2: nat, i: nat, j: nat)
    requires Legal(b, EMPTY, run, WithinWindow)
    requires
      var dlq := Run(b, EMPTY, run, WithinWindow).server.dlq;
      i < |dlq| && j < |dlq| && dlq[i].id == MsgId(b.stream, q1) && dlq[j].id == MsgId(b.stream, q2)
    ensures i == j <==> q1 == q2
  {
    OnceRun(b, EMPTY, run);
    if i == j {
      MsgIdInjective(b.stream, q1, b.stream, q2);
    }
  }

  /** Letters stored under a message ID. */
  function Copies(dlq: seq<Stored>, id: string): nat {
    if dlq == [] then 0
    else Copies(dlq[..|dlq| - 1], id) + if dlq[|dlq| - 1].id == id then 1 else 0
  }

  /** How often the dedup window forgets a message ID. */
  function Forgets(run: seq<Action>, id: string): nat {
    if run == [] then 0 else (if run[0] == Forget(id) then 1 else 0) + Forgets(run[1..], id)
  }

  /** Letters stored under an ID that the window does not answer for. */
  function Unremembered(v: Server, id: string): int {
    Copies(v.dlq, id) - if id in v.window then 1 else 0
  }

  lemma StoreRemembers(v: Server, stored: string, letter: DeadLetter, id: string)
    ensures Unremembered(StoreLetter(v, stored, letter), id) == Unremembered(v, id)
  {
    var dlq := v.dlq + [Stored(stored, letter)];
    assert dlq[..|dlq| - 1] == v.dlq;
  }

  lemma UnrememberedStep(b: ConsumerBinding, s: State, a: Action, id: string)
    requires Enabled(b, s, a)
    ensures Unremembered(Step(b, s, a).server, id) <= Unremembered(s.server, id) + if a == Forget(id) then 1 else 0
  {
    if a.Handle? {
      var h := s.handlers[a.id];
      var (effect, next) := HandlerStep(b, s.server.sources[h.sequence].msg, h.pc, a.env);
      if effect.Some? && effect.value.Publish? {
        StoreRemembers(s.server, effect.value.id, effect.value.letter, id);
      }
    } else if a.Foreign? {
      StoreRemembers(s.server, MsgId(b.stream, a.sequence), a.letter, id);
    }
  }

  lemma {:induction false} UnrememberedRun(b: ConsumerBinding, s: State, run: seq<Action>, id: string)
    requires Legal(b, s, run, Anything)
    ensures Unremembered(Run(b, s, run, Anything).server, id) <= Unremembered(s.server, id) + Forgets(run, id)
    decreases |run|
  {
    if run != [] {
      UnrememberedStep(b, s, run[0], id);
      UnrememberedRun(b, Step(b, s, run[0]), run[1..], id);
    }
  }

  /** In every run whatever, a message has at most one stored letter plus one for each time the dedup
      window forgot its ID. */
  lemma LettersPerMessage(b: ConsumerBinding, run: seq<Action>, q: nat)
    requires Legal(b, EMPTY, run, Anything)
    ensures Copies(Run(b, EMPTY, run, Anything).server.dlq, MsgId(b.stream, q)) <= 1 + Forgets(run, MsgId(b.stream, q))
  {
    UnrememberedRun(b, EMPTY, run, MsgId(b.stream, q));
  }

  // ---------------------------------------------------------------------------------------
  // Bounded settlement

  /** From delivery k on, handlers finish, metadata is readable, settlements land and dead-letter
      publishes succeed. */
  predicate CalmFrom(k: nat, s: State, a: Action) {
    && (a.Handle? && a.id in s.handlers && s.handlers[a.id].number >= k ==>
          a.env.meta.Some? && a.env.publish.Ok? && Landed(a.env.ack) && Landed(a.env.term))
    && (a.Crash? && a.id in s.handlers ==> s.handlers[a.id].number < k)
  }

  /** A handler past both bounds only gives up or finishes once its message is settled. */
  ghost predicate Settling(b: ConsumerBinding, v: Server, h: Handler, k: nat) {
    && h.sequence in v.sources
    && (h.pc.Executing? ==> h.pc.deliveries == h.number)
    && (h.number >= k && MaxDeliverReached(h.number, b.maxDeliver) && (h.pc.Done? || h.pc.Naking?) ==>
          !v.sources[h.sequence].status.Pending?)
  }

  ghost predicate SettleInv(b: ConsumerBinding, s: State, k: nat) {
    forall i :: i in s.handlers ==> Settling(b, s.server, s.handlers[i], k)
  }

  /** Nothing that is settled becomes pending again. */
  ghost predicate StaysSettled(v: Server, v': Server) {
    && v.sources.Keys <= v'.sources.Keys
    && forall q :: q in v.sources && !v.sources[q].status.Pending? ==> !v'.sources[q].status.Pending?
  }

  lemma ApplySettles(b: ConsumerBinding, v: Server, h: Handler, effect: Effect, env: Env)
    requires h.sequence in v.sources
    ensures StaysSettled(v, Apply(b, v, h, effect, env))
    ensures
      (effect.Ack? && Landed(env.ack)) || (effect.Term? && Landed(env.term)) ==>
        !Apply(b, v, h, effect, env).sources[h.sequence].status.Pending?
  {
  }

  lemma HandleSettling(b: ConsumerBinding, v: Server, h: Handler, env: Env, k: nat)
    requires !b.ackPolicy.AckNone? && Settling(b, v, h, k)
    requires Working(v, h) && !h.pc.Done? && Honest(b, h, env)
    requires h.number >= k ==> env.meta.Some? && env.publish.Ok? && Landed(env.ack) && Landed(env.term)
    ensures StaysSettled(v, HandleOne(b, v, h, env).0)
    ensures Settling(b, HandleOne(b, v, h, env).0, HandleOne(b, v, h, env).1, k)
  {
    var (effect, next) := HandlerStep(b, v.sources[h.sequence].msg, h.pc, env);
    if effect.Some? {
      ApplySettles(b, v, h, effect.value, env);
    }
  }

  lemma SettleStep(b: ConsumerBinding, s: State, a: Action, k: nat)
    requires !b.ackPolicy.AckNone? && SettleInv(b, s, k) && Enabled(b, s, a) && CalmFrom(k, s, a)
    ensures SettleInv(b, Step(b, s, a), k)
  {
    if a.Handle? {
      HandleSettling(b, s.server, s.handlers[a.id], a.env, k);
    }
    var v, s' := s.server, Step(b, s, a);
    assert StaysSettled(v, s'.server);
    forall i | i in s.handlers && !(a.Handle? && i == a.id) && !(a.Crash? && i == a.id)
      ensures Settling(b, s'.server, s.handlers[i], k)
    {
      assert Settling(b, v, s.handlers[i], k);
    }
  }

  lemma {:induction false} SettleRun(b: ConsumerBinding, s: State, run: seq<Action>, k: nat)
    requires !b.ackPolicy.AckNone? && SettleInv(b, s, k) && Legal(b, s, run, (t, a) => CalmFrom(k, t, a))
    ensures SettleInv(b, Run(b, s, run, (t, a) => CalmFrom(k, t, a)), k)
    decreases |run|
  {
    if run != [] {
      SettleStep(b, s, run[0], k);
      SettleRun(b, Step(b, s, run[0]), run[1..], k);
    }
  }

  /** If deliveries are calm from the k-th on, then once the handler of any delivery from
      max(k, MaxDeliver) on has finished, its message is settled and never delivered again. */
  lemma BoundedSettlementRun(b: ConsumerBinding, run: seq<Action>, k: nat, id: nat)
    requires !b.ackPolicy.AckNone? && 0 < b.maxDeliver && Legal(b, EMPTY, run, (t, a) => CalmFrom(k, t, a))
    requires
      var s := Run(b, EMPTY, run, (t, a) => CalmFrom(k, t, a));
      id in s.handlers && s.handlers[id].pc.Done? && s.handlers[id].number >= k && s.handlers[id].number >= b.maxDeliver
    ensures
      var s := Run(b, EMPTY, run, (t, a) => CalmFrom(k, t, a));
      var q := s.handlers[id].sequence;
      && q in s.server.sources && !s.server.sources[q].status.Pending?
      && forall other :: !Enabled(b, s, Deliver(q, other))
  {
    SettleRun(b, EMPTY, run, k);
    var s := Run(b, EMPTY, run, (t, a) => CalmFrom(k, t, a));
    assert Settling(b, s.server, s.handlers[id], k);
  }
}
