/** A handler left alone performs exactly the trace of handleConsumerMessage, and the runs that show
    why the delivery theorems need their hypotheses. */
module BrokerRuns {
  import opened Options
  import opened Delivery
  import opened Broker
  import opened BrokerTheorems
  import opened BrokerSuccess

  lemma Cons(b: ConsumerBinding, s: State, a: Action, s1: State, rest: seq<Action>, h: (State, Action) -> bool)
    requires Enabled(b, s, a) && h(s, a) && Step(b, s, a) == s1 && Legal(b, s1, rest, h)
    ensures Legal(b, s, [a] + rest, h) && Run(b, s, [a] + rest, h) == Run(b, s1, rest, h)
  {
    assert ([a] + rest)[1..] == rest;
  }

  lemma {:induction false} Concat(b: ConsumerBinding, s: State, r1: seq<Action>, r2: seq<Action>, h: (State, Action) -> bool)
    requires Legal(b, s, r1, h) && Legal(b, Run(b, s, r1, h), r2, h)
    ensures Legal(b, s, r1 + r2, h) && Run(b, s, r1 + r2, h) == Run(b, Run(b, s, r1, h), r2, h)
    decreases |r1|
  {
    if r1 == [] {
      assert r1 + r2 == r2;
    } else {
      Concat(b, Step(b, s, r1[0]), r1[1..], r2, h);
      assert (r1 + r2)[1..] == r1[1..] + r2;
    }
  }

  /** A stronger hypothesis gives the same run under a weaker one. */
  lemma {:induction false} Weaken(b: ConsumerBinding, s: State, run: seq<Action>,
                                  h: (State, Action) -> bool, g: (State, Action) -> bool)
    requires Legal(b, s, run, h) && forall t, a :: h(t, a) ==> g(t, a)
    ensures Legal(b, s, run, g) && Run(b, s, run, g) == Run(b, s, run, h)
    decreases |run|
  {
    if run != [] {
      Weaken(b, Step(b, s, run[0]), run[1..], h, g);
    }
  }

  /** All effects of a trace, one after the other. */
  function ApplyAll(b: ConsumerBinding, v: Server, h: Handler, effects: seq<Effect>, env: Env): (v': Server)
    requires h.sequence in v.sources
    ensures h.sequence in v'.sources && v'.sources[h.sequence].msg == v.sources[h.sequence].msg
    decreases |effects|
  {
    if effects == [] then v else ApplyAll(b, Apply(b, v, h, effects[0], env), h, effects[1..], env)
  }

  /** A handler that is neither disturbed nor crashes has exactly the effects of
      handleConsumerMessage for its delivery. */
  lemma {:induction false} HandledAlone(b: ConsumerBinding, s: State, id: nat, env: Env, hyp: (State, Action) -> bool)
      returns (run: seq<Action>)
    requires id in s.handlers && Working(s.server, s.handlers[id]) && Honest(b, s.handlers[id], env)
    requires forall t :: hyp(t, Handle(id, env))
    ensures Legal(b, s, run, hyp)
    ensures
      var h := s.handlers[id];
      var trace := Trace(b, s.server.sources[h.sequence].msg, h.pc, env);
      Run(b, s, run, hyp) == State(ApplyAll(b, s.server, h, trace, env), s.handlers[id := h.(pc := Done)])
    decreases PcRank(s.handlers[id].pc)
  {
    var h, msg := s.handlers[id], s.server.sources[s.handlers[id].sequence].msg;
    if h.pc.Done? {
      assert s.handlers[id := h] == s.handlers;
      return [];
    }
    var (effect, next) := HandlerStep(b, msg, h.pc, env);
    var s1 := Step(b, s, Handle(id, env));
    var h1 := s1.handlers[id];
    assert s1.server.sources[h.sequence].msg == msg;
    var rest := HandledAlone(b, s1, id, env, hyp);
    Cons(b, s, Handle(id, env), s1, rest, hyp);
    run := [Handle(id, env)] + rest;
    var trace := Trace(b, msg, next, env);
    SameHandler(b, s1.server, h1, h, trace, env);
    assert s1.handlers[id := h1.(pc := Done)] == s.handlers[id := h.(pc := Done)];
    if effect.Some? {
      assert ([effect.value] + trace)[1..] == trace;
    } else {
      assert [] + trace == trace;
    }
  }

  /** Effects do not depend on where the handler stands in its program. */
  lemma {:induction false} SameHandler(b: ConsumerBinding, v: Server, h: Handler, h': Handler, effects: seq<Effect>, env: Env)
    requires h.sequence in v.sources && h'.sequence == h.sequence && h'.number == h.number
    ensures ApplyAll(b, v, h, effects, env) == ApplyAll(b, v, h', effects, env)
    decreases |effects|
  {
    if effects != [] {
      SameHandler(b, Apply(b, v, h, effects[0], env), h, h', effects[1..], env);
    }
  }

  /** The same from the delivery on. */
  lemma DeliveredAlone(b: ConsumerBinding, s: State, q: nat, id: nat, env: Env, hyp: (State, Action) -> bool)
      returns (run: seq<Action>)
    requires Enabled(b, s, Deliver(q, id)) && Honest(b, Handler(q, s.server.sources[q].delivered + 1, Start), env)
    requires hyp(s, Deliver(q, id)) && forall t :: hyp(t, Handle(id, env))
    ensures Legal(b, s, run, hyp)
    ensures
      var src := s.server.sources[q];
      var h := Handler(q, src.delivered + 1, Start);
      Run(b, s, run, hyp)
        == State(ApplyAll(b, Delivered(s.server, q, 1), h, Trace(b, src.msg, Start, env), env), s.handlers[id := h.(pc := Done)])
  {
    var s1 := Step(b, s, Deliver(q, id));
    var rest := HandledAlone(b, s1, id, env, hyp);
    Cons(b, s, Deliver(q, id), s1, rest, hyp);
    run := [Deliver(q, id)] + rest;
    var h := s1.handlers[id];
    assert s1.handlers[id := h.(pc := Done)] == s.handlers[id := h.(pc := Done)];
  }

  /** The server after n further deliveries of message q. */
  function Delivered(v: Server, q: nat, n: nat): Server
    requires q in v.sources
  {
    v.(sources := v.sources[q := v.sources[q].(delivered := v.sources[q].delivered + n)])
  }

  lemma ApplyTwo(b: ConsumerBinding, v: Server, h: Handler, e1: Effect, e2: Effect, env: Env)
    requires h.sequence in v.sources
    ensures ApplyAll(b, v, h, [e1, e2], env) == Apply(b, Apply(b, v, h, e1, env), h, e2, env)
  {
    var v1 := Apply(b, v, h, e1, env);
    assert [e1, e2][1..] == [e2] && [e2][1..] == [];
    assert ApplyAll(b, v, h, [e1, e2], env) == ApplyAll(b, v1, h, [e2], env);
    assert ApplyAll(b, v1, h, [e2], env) == ApplyAll(b, Apply(b, v1, h, e2, env), h, [], env);
  }

  // ---------------------------------------------------------------------------------------
  // Dead-letter retries have no bound

  /** Delivery n of message q at which the dead-letter publish is refused. */
  function NoDeadLetter(b: ConsumerBinding, q: nat, n: nat, err: Error): Env {
    Env(Some(Meta(n, b.stream, q)), err, None, Refused(err), Ok, Ok)
  }

  /** Past the limit such a delivery tries to publish the dead letter, asks for redelivery and leaves
      everything else as it was. */
  lemma RefusedRetry(b: ConsumerBinding, v: Server, h: Handler, err: Error)
    requires !b.ackPolicy.AckNone? && b.deadLetter != "" && b.maxDeliver < h.number <= MAX_UINT64
    requires h.sequence in v.sources
    ensures
      var env, msg := NoDeadLetter(b, h.sequence, h.number, err), v.sources[h.sequence].msg;
      var t := Trace(b, msg, Start, env);
      && t == [Publish(MsgId(b.stream, h.sequence), LetterFor(b, msg, LimitExceeded, h.number)),
               Nak(ConsumerRetryDelay(b, h.number, err))]
      && ApplyAll(b, v, h, t, env) == v
  {
    var env, msg := NoDeadLetter(b, h.sequence, h.number, err), v.sources[h.sequence].msg;
    TraceCases(b, msg, env);
    DlqTrace(b, msg, h.number, LimitExceeded, None, env);
    var t := Trace(b, msg, Start, env);
    ApplyTwo(b, v, h, t[0], t[1], env);
  }

  lemma RetryOnce(b: ConsumerBinding, s: State, q: nat, id: nat, err: Error) returns (run: seq<Action>, s': State)
    requires !b.ackPolicy.AckNone? && b.deadLetter != ""
    requires Enabled(b, s, Deliver(q, id)) && b.maxDeliver <= s.server.sources[q].delivered
    ensures Legal(b, s, run, OnlyDurable) && Run(b, s, run, OnlyDurable) == s'
    ensures s'.server == Delivered(s.server, q, 1) && s'.handlers.Keys == s.handlers.Keys + {id}
  {
    var k := s.server.sources[q].delivered + 1;
    run := DeliveredAlone(b, s, q, id, NoDeadLetter(b, q, k, err), OnlyDurable);
    RefusedRetry(b, Delivered(s.server, q, 1), Handler(q, k, Start), err);
    s' := Run(b, s, run, OnlyDurable);
  }

  /** However many retries one asks for, there is a run with that many of them: a message past its
      limit whose dead letter is refused every time stays pending and its action is not run again. */
  lemma {:induction false} RetriesUnbounded(b: ConsumerBinding, s: State, q: nat, id: nat, n: nat, err: Error)
      returns (run: seq<Action>)
    requires !b.ackPolicy.AckNone? && b.deadLetter != ""
    requires q in s.server.sources && s.server.sources[q].status.Pending? && Deliverable(b, s.server, q)
    requires b.maxDeliver <= s.server.sources[q].delivered && s.server.sources[q].delivered + n <= MAX_UINT64
    requires forall i :: i in s.handlers ==> i < id
    ensures Legal(b, s, run, OnlyDurable)
    ensures Run(b, s, run, OnlyDurable).server == Delivered(s.server, q, n)
    decreases n
  {
    if n == 0 {
      assert s.server.sources[q := s.server.sources[q]] == s.server.sources;
      return [];
    }
    var first, s1 := RetryOnce(b, s, q, id, err);
    var rest := RetriesUnbounded(b, s1, q, id + 1, n - 1, err);
    Concat(b, s, first, rest, OnlyDurable);
    assert Delivered(s1.server, q, n - 1).sources == Delivered(s.server, q, n).sources;
    run := first + rest;
  }

  // ---------------------------------------------------------------------------------------
  // Pieces of runs

  const BODY: Msg := Msg("work", [7], map[])
  const OOPS: Error := Error("oops", 0)

  /** An acknowledging binding whose limits are positive, the delivery limit as a Go int. */
  predicate Limited(b: ConsumerBinding) {
    !b.ackPolicy.AckNone? && 0 < b.maxDeliver <= MAX_INT64 && 0 < b.maxAckPending
  }

  /** Every hypothesis of the delivery theorems at once. */
  ghost predicate Careful(s: State, a: Action) {
    OnlyDurable(s, a) && WithinWindow(s, a) && Orderly(s, a)
  }

  /** Delivery n of message q: the action succeeds, `ack` answers its acknowledgement and every other
      request is granted. */
  function Calm(b: ConsumerBinding, q: nat, n: nat, ack: Sent): Env {
    Env(Some(Meta(n, b.stream, q)), OOPS, None, Ok, Ok, ack)
  }

  /** One message, waiting to be delivered. */
  lemma OneMessage(b: ConsumerBinding) returns (run: seq<Action>, s: State)
    ensures Legal(b, EMPTY, run, Careful) && Run(b, EMPTY, run, Careful) == s
    ensures s == State(Server(map[1 := Source(BODY, 0, Pending, {}, 0, false)], [], {}), map[])
  {
    s := State(Server(map[1 := Source(BODY, 0, Pending, {}, 0, false)], [], {}), map[]);
    Cons(b, EMPTY, Arrive(1, BODY), s, [], Careful);
    run := [Arrive(1, BODY)] + [];
  }

  /** Deliveries whose handlers crash at once. */
  lemma {:induction false} LostDeliveries(b: ConsumerBinding, s: State, q: nat, id: nat, n: nat) returns (run: seq<Action>)
    requires q in s.server.sources && s.server.sources[q].status.Pending? && Deliverable(b, s.server, q)
    requires s.server.sources[q].delivered + n <= MAX_UINT64
    requires AllDone(s, q) && forall i :: i in s.handlers ==> i < id
    ensures Legal(b, s, run, Careful)
    ensures
      var s' := Run(b, s, run, Careful);
      && s'.server == Delivered(s.server, q, n)
      && AllDone(s', q) && forall i :: i in s'.handlers ==> i < id + n
    decreases n
  {
    if n == 0 {
      assert s.server.sources[q := s.server.sources[q]] == s.server.sources;
      return [];
    }
    var s1 := Step(b, s, Deliver(q, id));
    var s2 := Step(b, s1, Crash(id));
    run := LostDeliveries(b, s2, q, id + 1, n - 1);
    assert Delivered(s2.server, q, n - 1).sources == Delivered(s.server, q, n).sources;
    Cons(b, s1, Crash(id), s2, run, Careful);
    run := [Crash(id)] + run;
    Cons(b, s, Deliver(q, id), s1, run, Careful);
    run := [Deliver(q, id)] + run;
  }

  /** One message after n lost deliveries. */
  lemma LostMessage(b: ConsumerBinding, n: nat) returns (run: seq<Action>, s: State)
    requires Limited(b) && n <= MAX_UINT64
    ensures Legal(b, EMPTY, run, Careful) && Run(b, EMPTY, run, Careful) == s
    ensures s.server == Server(map[1 := Source(BODY, n, Pending, {}, 0, false)], [], {})
    ensures 1 in s.server.sources && Deliverable(b, s.server, 1)
    ensures AllDone(s, 1) && forall i :: i in s.handlers ==> i < n
  {
    var first, s1 := OneMessage(b);
    assert Outstanding(s1.server) == {};
    var second := LostDeliveries(b, s1, 1, 0, n);
    Concat(b, EMPTY, first, second, Careful);
    run, s := first + second, Run(b, s1, second, Careful);
    assert s.server.sources == map[1 := Source(BODY, n, Pending, {}, 0, false)];
  }

  /** A delivery within the limit whose action succeeds. */
  lemma SuccessAlone(b: ConsumerBinding, s: State, q: nat, id: nat, ack: Sent, hyp: (State, Action) -> bool)
      returns (run: seq<Action>)
    requires !b.ackPolicy.AckNone? && Enabled(b, s, Deliver(q, id)) && s.server.sources[q].delivered < b.maxDeliver
    requires hyp(s, Deliver(q, id)) && forall t, n :: hyp(t, Handle(id, Calm(b, q, n, ack)))
    ensures Legal(b, s, run, hyp)
    ensures
      var k, v := s.server.sources[q].delivered + 1, Delivered(s.server, q, 1);
      var ran := v.sources[q := RunAction(v.sources[q], k, true)];
      Run(b, s, run, hyp) == State(v.(sources := if ack.Refused? then ran else SettleAck(b, ran, q)),
                                   s.handlers[id := Handler(q, k, Done)])
  {
    var k, v := s.server.sources[q].delivered + 1, Delivered(s.server, q, 1);
    var env := Calm(b, q, k, ack);
    TraceCases(b, v.sources[q].msg, env);
    run := DeliveredAlone(b, s, q, id, env, hyp);
    ApplyTwo(b, v, Handler(q, k, Start), Execute, Ack, env);
  }

  /** The server after message q was disposed of on its n-th delivery. */
  function Disposed(b: ConsumerBinding, v: Server, q: nat, n: nat): Server
    requires q in v.sources
  {
    var v1 := if b.deadLetter == "" then v
              else StoreLetter(v, MsgId(b.stream, q), LetterFor(b, v.sources[q].msg, LimitExceeded, n));
    v1.(sources := v.sources[q := SettleTerm(v.sources[q])])
  }

  /** A delivery past the limit, with every request granted, terminates its message whatever its
      history, with a dead letter if there is a dead-letter subject. */
  lemma PastLimit(b: ConsumerBinding, s: State, q: nat, id: nat, hyp: (State, Action) -> bool) returns (run: seq<Action>)
    requires !b.ackPolicy.AckNone? && Enabled(b, s, Deliver(q, id)) && b.maxDeliver <= s.server.sources[q].delivered
    requires hyp(s, Deliver(q, id)) && forall t, n :: hyp(t, Handle(id, Calm(b, q, n, Ok)))
    ensures Legal(b, s, run, hyp)
    ensures
      var k := s.server.sources[q].delivered + 1;
      Run(b, s, run, hyp) == State(Disposed(b, Delivered(s.server, q, 1), q, k), s.handlers[id := Handler(q, k, Done)])
  {
    var k, v := s.server.sources[q].delivered + 1, Delivered(s.server, q, 1);
    var env, h := Calm(b, q, k, Ok), Handler(q, k, Start);
    run := DeliveredAlone(b, s, q, id, env, hyp);
    DisposedBy(b, v, h, env);
  }

  lemma DisposedBy(b: ConsumerBinding, v: Server, h: Handler, env: Env)
    requires !b.ackPolicy.AckNone? && h.sequence in v.sources && b.maxDeliver < h.number <= MAX_UINT64
    requires env == Calm(b, h.sequence, h.number, Ok)
    ensures ApplyAll(b, v, h, Trace(b, v.sources[h.sequence].msg, Start, env), env) == Disposed(b, v, h.sequence, h.number)
  {
    var msg := v.sources[h.sequence].msg;
    TraceCases(b, msg, env);
    var t := Trace(b, msg, Start, env);
    if b.deadLetter == "" {
      assert t == [Term] && t[1..] == [];
    } else {
      var publish := Publish(MsgId(b.stream, h.sequence), LetterFor(b, msg, LimitExceeded, h.number));
      assert t == [publish, Term];
      ApplyTwo(b, v, h, publish, Term, env);
    }
  }

  // ---------------------------------------------------------------------------------------
  // Why the hypotheses are needed

  /** Some message of the run's last state was terminated although its action succeeded. */
  ghost predicate LosesSuccess(b: ConsumerBinding, run: seq<Action>, hyp: (State, Action) -> bool) {
    && Legal(b, EMPTY, run, hyp)
    && exists q :: q in Run(b, EMPTY, run, hyp).server.sources
         && Run(b, EMPTY, run, hyp).server.sources[q].succeeded
         && Run(b, EMPTY, run, hyp).server.sources[q].status.Terminated?
  }

  /** From every state in which a message has succeeded, is not settled and no handler is at work on it,
      a run that meets every condition of SuccessIsFinal disposes of it. By SuccessIsFinal no orderly run
      from the start reaches such a state. */
  lemma SuccessAtRisk(b: ConsumerBinding, s: State, q: nat, id: nat) returns (run: seq<Action>)
    requires Limited(b) && Enabled(b, s, Deliver(q, id)) && s.server.sources[q].succeeded
    requires AllDone(s, q) && forall i :: i in s.handlers ==> i < id
    ensures Legal(b, s, run, Careful)
    ensures
      var v := Run(b, s, run, Careful).server;
      q in v.sources && v.sources[q].succeeded && v.sources[q].status.Terminated?
  {
    var delivered := s.server.sources[q].delivered;
    var n := if delivered < b.maxDeliver then b.maxDeliver - delivered else 0;
    var first := LostDeliveries(b, s, q, id, n);
    var s1 := Run(b, s, first, Careful);
    var second := PastLimit(b, s1, q, id + n, Careful);
    Concat(b, s, first, second, Careful);
    run := first + second;
  }

  /** A success does not rule out a dead letter: under every binding, when the acknowledgement is
      refused and the limit is used up, the redelivered message is disposed of, although its deliveries
      never overlap. */
  lemma SucceededThenDeadLettered(b: ConsumerBinding) returns (run: seq<Action>)
    requires Limited(b)
    ensures LosesSuccess(b, run, Sequential)
  {
    var n := b.maxDeliver;
    var first, s1 := LostMessage(b, n - 1);
    Weaken(b, EMPTY, first, Careful, Sequential);
    var second := SuccessAlone(b, s1, 1, n - 1, Refused(OOPS), Sequential);
    Concat(b, EMPTY, first, second, Sequential);
    var s2 := Run(b, s1, second, Sequential);
    var third := PastLimit(b, s2, 1, n, Sequential);
    Concat(b, EMPTY, first + second, third, Sequential);
    run := first + second + third;
    assert 1 in Run(b, EMPTY, run, Sequential).server.sources;
  }

  /** Nor is it enough that acknowledgements take effect: while a slow handler is still to run the
      action, a later delivery may dispose of the message. */
  lemma OverlappingDeliveries(b: ConsumerBinding) returns (run: seq<Action>)
    requires Limited(b)
    ensures LosesSuccess(b, run, AckKept)
  {
    var n := b.maxDeliver;
    var first, s1 := LostMessage(b, n - 1);
    Weaken(b, EMPTY, first, Careful, AckKept);
    var second := SlowHandler(b, s1, n);
    Concat(b, EMPTY, first, second, AckKept);
    run := first + second;
    assert 1 in Run(b, EMPTY, run, AckKept).server.sources;
  }

  lemma SlowHandler(b: ConsumerBinding, s: State, n: nat) returns (run: seq<Action>)
    requires Limited(b) && n == b.maxDeliver && forall i :: i in s.handlers ==> i < n - 1
    requires s.server == Server(map[1 := Source(BODY, n - 1, Pending, {}, 0, false)], [], {})
    ensures Legal(b, s, run, AckKept)
    ensures
      var v := Run(b, s, run, AckKept).server;
      1 in v.sources && v.sources[1].succeeded && v.sources[1].status.Terminated?
  {
    var s1 := Step(b, s, Deliver(1, n - 1));
    var disposal := PastLimit(b, s1, 1, n, AckKept);
    var s2 := Run(b, s1, disposal, AckKept);
    var late := LateSuccess(b, s2, 1, n - 1);
    Concat(b, s1, disposal, late, AckKept);
    Cons(b, s, Deliver(1, n - 1), s1, disposal + late, AckKept);
    run := [Deliver(1, n - 1)] + (disposal + late);
  }

  /** A handler that has not started yet, of a message that is already settled. */
  lemma LateSuccess(b: ConsumerBinding, s: State, q: nat, id: nat) returns (run: seq<Action>)
    requires !b.ackPolicy.AckNone? && q in s.server.sources && s.server.sources[q].status.Terminated?
    requires id in s.handlers && s.handlers[id].sequence == q && s.handlers[id].pc.Start?
    requires 0 < b.maxDeliver && s.handlers[id].number <= MAX_UINT64 && s.handlers[id].number <= b.maxDeliver
    ensures Legal(b, s, run, AckKept)
    ensures
      var v := Run(b, s, run, AckKept).server;
      q in v.sources && v.sources[q].succeeded && v.sources[q].status.Terminated?
  {
    var h := s.handlers[id];
    var env := Calm(b, q, h.number, Ok);
    run := HandledAlone(b, s, id, env, AckKept);
    TraceCases(b, s.server.sources[q].msg, env);
    ApplyTwo(b, s.server, h, Execute, Ack, env);
  }

  /** Under AckAll, as soon as two messages may be outstanding, the acknowledgement of the later one
      settles an earlier one whose delivery was lost and that was waiting for its retry. */
  lemma AckAllLosesRetry(b: ConsumerBinding) returns (run: seq<Action>)
    requires Limited(b) && b.ackPolicy.AckAll? && b.maxAckPending > 1
    ensures Legal(b, EMPTY, run, OnlyDurable)
    ensures
      var v := Run(b, EMPTY, run, OnlyDurable).server;
      1 in v.sources && v.sources[1].status.Acked? && v.sources[1].runs == 0 && !v.sources[1].succeeded && v.dlq == []
  {
    var first, s1 := LostMessage(b, 1);
    Weaken(b, EMPTY, first, Careful, OnlyDurable);
    var s2 := Step(b, s1, Arrive(2, BODY));
    assert Outstanding(s2.server) == {1};
    var second := SuccessAlone(b, s2, 2, 1, Ok, OnlyDurable);
    Cons(b, s1, Arrive(2, BODY), s2, second, OnlyDurable);
    second := [Arrive(2, BODY)] + second;
    Concat(b, EMPTY, first, second, OnlyDurable);
    run := first + second;
  }

  /** Without a dead-letter subject a message is terminated and nothing is left of it. */
  lemma NoDeadLetterSubject(b: ConsumerBinding) returns (run: seq<Action>)
    requires Limited(b) && b.deadLetter == ""
    ensures Legal(b, EMPTY, run, OnlyDurable)
    ensures
      var v := Run(b, EMPTY, run, OnlyDurable).server;
      1 in v.sources && v.sources[1].status.Terminated? && v.dlq == []
  {
    var n := b.maxDeliver;
    var first, s1 := LostMessage(b, n);
    Weaken(b, EMPTY, first, Careful, OnlyDurable);
    var second := PastLimit(b, s1, 1, n, OnlyDurable);
    Concat(b, EMPTY, first, second, OnlyDurable);
    run := first + second;
  }

  /** In every run of one durable, every message is accounted for. */
  ghost predicate NeverLoses(b: ConsumerBinding) {
    forall run, q | Legal(b, EMPTY, run, OnlyDurable) && q in Run(b, EMPTY, run, OnlyDurable).server.sources ::
      Accounted(b, Run(b, EMPTY, run, OnlyDurable).server, q)
  }

  /** A validated acknowledging consumer never loses a message if and only if it has a dead-letter
      subject, and acknowledges explicitly or has at most one message outstanding. */
  lemma LossCondition(b: ConsumerBinding)
    requires ValidConsumer(b) && Limited(b)
    ensures NeverLoses(b) <==>
      b.deadLetter != "" && (b.ackPolicy.AckExplicit? || b.maxAckPending == 1)
  {
    if DeadLettering(b) {
      forall run, q | Legal(b, EMPTY, run, OnlyDurable) && q in Run(b, EMPTY, run, OnlyDurable).server.sources
        ensures Accounted(b, Run(b, EMPTY, run, OnlyDurable).server, q)
      {
        NoMessageLoss(b, run, q);
      }
    } else if b.deadLetter != "" {
      var run := AckAllLosesRetry(b);
      assert !Accounted(b, Run(b, EMPTY, run, OnlyDurable).server, 1);
    } else {
      var run := NoDeadLetterSubject(b);
      assert !Accounted(b, Run(b, EMPTY, run, OnlyDurable).server, 1);
    }
  }

  /** The message ID does not name the durable: under every binding, when another durable of the
      stream has dead-lettered the same message, this durable's letter is dropped as a duplicate and
      the message is terminated without a letter of its own. */
  lemma SharedMessageId(b: ConsumerBinding) returns (run: seq<Action>)
    requires Limited(b)
    ensures Legal(b, EMPTY, run, Anything)
    ensures
      var v := Run(b, EMPTY, run, Anything).server;
      1 in v.sources && v.sources[1].status.Terminated? && !Lettered(b, v, 1)
  {
    var n := b.maxDeliver;
    var other := LetterFor(b.(durable := b.durable + "x"), BODY, LimitExceeded, n + 1);
    var first, s1 := LostMessage(b, n);
    Weaken(b, EMPTY, first, Careful, Anything);
    var s2 := Step(b, s1, Foreign(1, other));
    var second := PastLimit(b, s2, 1, n, Anything);
    Cons(b, s1, Foreign(1, other), s2, second, Anything);
    second := [Foreign(1, other)] + second;
    Concat(b, EMPTY, first, second, Anything);
    run := first + second;
    assert |other.durable| != |b.durable|;
  }
}
