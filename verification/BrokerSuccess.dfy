/** When a message whose action succeeded cannot be dead-lettered. */
module BrokerSuccess {
  import opened Delivery
  import opened Broker

  /** A message is delivered again only when every earlier delivery of it has been handled. */
  ghost predicate Sequential(s: State, a: Action) {
    a.Deliver? ==> AllDone(s, a.sequence)
  }

  ghost predicate AllDone(s: State, q: nat) {
    forall i :: i in s.handlers && s.handlers[i].sequence == q ==> s.handlers[i].pc.Done?
  }

  /** A handler whose action succeeded does not crash, and its acknowledgement takes effect. */
  predicate AckKept(s: State, a: Action) {
    && (a.Crash? && a.id in s.handlers ==> !s.handlers[a.id].pc.Acking?)
    && (a.Handle? && a.id in s.handlers && s.handlers[a.id].pc.Acking? ==> Landed(a.env.ack))
  }

  ghost predicate Orderly(s: State, a: Action) {
    Sequential(s, a) && AckKept(s, a)
  }

  // ---------------------------------------------------------------------------------------
  // Invariant

  /** What a handler's position says about its message. */
  ghost predicate Fits(src: Source, pc: Pc) {
    && (pc.Acking? ==> src.succeeded)
    && (src.succeeded ==> pc.Acking? || pc.Done?)
    && (src.status.Terminated? ==> !pc.Start? && !pc.Executing?)
  }

  ghost predicate HandlersFit(s: State) {
    forall i :: i in s.handlers ==>
      s.handlers[i].sequence in s.server.sources && Fits(s.server.sources[s.handlers[i].sequence], s.handlers[i].pc)
  }

  predicate AtWork(h: Handler, g: Handler) {
    h.sequence == g.sequence && !h.pc.Done? && !g.pc.Done?
  }

  /** At most one handler of a message is at work. */
  ghost predicate OneAtWork(s: State) {
    forall i, j :: i in s.handlers && j in s.handlers && AtWork(s.handlers[i], s.handlers[j]) ==> i == j
  }

  ghost predicate BeingAcked(s: State, q: nat) {
    exists i :: i in s.handlers && s.handlers[i].sequence == q && s.handlers[i].pc.Acking?
  }

  ghost predicate SourcesFit(s: State) {
    forall q :: q in s.server.sources && s.server.sources[q].succeeded ==>
      !s.server.sources[q].status.Terminated? && (s.server.sources[q].status.Pending? ==> BeingAcked(s, q))
  }

  ghost predicate SuccessInv(s: State) {
    HandlersFit(s) && OneAtWork(s) && SourcesFit(s)
  }

  // ---------------------------------------------------------------------------------------
  // Every orderly step keeps it

  /** What a step of another message's handler may do to a message. */
  ghost predicate Moderate(src: Source, src': Source) {
    && src'.succeeded == src.succeeded
    && (src'.status.Pending? ==> src.status.Pending?)
    && (src'.status.Terminated? ==> src.status.Terminated?)
  }

  lemma OthersModerate(b: ConsumerBinding, v: Server, h: Handler, env: Env)
    requires Working(v, h) && !h.pc.Done? && Honest(b, h, env)
    ensures HandleOne(b, v, h, env).0.sources.Keys == v.sources.Keys
    ensures forall k :: k in v.sources && k != h.sequence ==>
      Moderate(v.sources[k], HandleOne(b, v, h, env).0.sources[k])
  {
  }

  /** The handler's own message: a success leads to Acking, and from there to a settled message. */
  lemma OwnFits(b: ConsumerBinding, v: Server, h: Handler, env: Env)
    requires !b.ackPolicy.AckNone? && Working(v, h) && !h.pc.Done? && Honest(b, h, env)
    requires Fits(v.sources[h.sequence], h.pc) && (h.pc.Acking? ==> Landed(env.ack))
    requires v.sources[h.sequence].succeeded ==> !v.sources[h.sequence].status.Terminated?
    ensures
      var (v', h') := HandleOne(b, v, h, env);
      && h'.sequence == h.sequence && h.sequence in v'.sources
      && var src' := v'.sources[h.sequence];
         && Fits(src', h'.pc)
         && (src'.succeeded ==> !src'.status.Terminated? && (src'.status.Pending? ==> h'.pc.Acking?))
  {
  }

  lemma HandleSuccess(b: ConsumerBinding, s: State, id: nat, env: Env)
    requires !b.ackPolicy.AckNone? && SuccessInv(s)
    requires Enabled(b, s, Handle(id, env)) && AckKept(s, Handle(id, env))
    ensures SuccessInv(Step(b, s, Handle(id, env)))
  {
    var h, s' := s.handlers[id], Step(b, s, Handle(id, env));
    OthersModerate(b, s.server, h, env);
    OwnFits(b, s.server, h, env);
    assert HandlersFit(s') by {
      forall i | i in s'.handlers
        ensures s'.handlers[i].sequence in s'.server.sources
        ensures Fits(s'.server.sources[s'.handlers[i].sequence], s'.handlers[i].pc)
      {
        if i != id && s.handlers[i].sequence == h.sequence {
          assert !AtWork(h, s.handlers[i]);
        }
      }
    }
    assert OneAtWork(s') by {
      assert forall i :: i in s.handlers ==> (AtWork(s'.handlers[id], s'.handlers[i]) ==> AtWork(h, s.handlers[i]));
    }
    forall q | q in s'.server.sources && s'.server.sources[q].succeeded
      ensures !s'.server.sources[q].status.Terminated? && (s'.server.sources[q].status.Pending? ==> BeingAcked(s', q))
    {
      if q == h.sequence {
        assert s'.handlers[id].sequence == q;
      } else if s'.server.sources[q].status.Pending? {
        var i :| i in s.handlers && s.handlers[i].sequence == q && s.handlers[i].pc.Acking?;
        assert s'.handlers[i] == s.handlers[i];
      }
    }
  }

  lemma DeliverSuccess(b: ConsumerBinding, s: State, q: nat, id: nat)
    requires SuccessInv(s) && Enabled(b, s, Deliver(q, id)) && AllDone(s, q)
    ensures SuccessInv(Step(b, s, Deliver(q, id)))
  {
    var s' := Step(b, s, Deliver(q, id));
    assert !s.server.sources[q].succeeded;
    forall k | k in s'.server.sources && s'.server.sources[k].succeeded
      ensures !s'.server.sources[k].status.Terminated? && (s'.server.sources[k].status.Pending? ==> BeingAcked(s', k))
    {
      StillAcked(s, s', k);
    }
  }

  lemma StillAcked(s: State, s': State, q: nat)
    requires forall i :: i in s.handlers && s.handlers[i].pc.Acking? ==> i in s'.handlers && s'.handlers[i] == s.handlers[i]
    ensures BeingAcked(s, q) ==> BeingAcked(s', q)
  {
    if BeingAcked(s, q) {
      var i :| i in s.handlers && s.handlers[i].sequence == q && s.handlers[i].pc.Acking?;
      assert s'.handlers[i] == s.handlers[i];
    }
  }

  lemma QuietSuccess(b: ConsumerBinding, s: State, a: Action)
    requires SuccessInv(s) && Enabled(b, s, a) && AckKept(s, a) && !a.Handle? && !a.Deliver?
    ensures SuccessInv(Step(b, s, a))
  {
    var s' := Step(b, s, a);
    forall q | q in s'.server.sources && s'.server.sources[q].succeeded
      ensures !s'.server.sources[q].status.Terminated? && (s'.server.sources[q].status.Pending? ==> BeingAcked(s', q))
    {
      StillAcked(s, s', q);
    }
  }

  lemma {:induction false} SuccessRun(b: ConsumerBinding, s: State, run: seq<Action>)
    requires !b.ackPolicy.AckNone? && SuccessInv(s) && Legal(b, s, run, Orderly)
    ensures SuccessInv(Run(b, s, run, Orderly))
    decreases |run|
  {
    if run != [] {
      var a := run[0];
      if a.Handle? {
        HandleSuccess(b, s, a.id, a.env);
      } else if a.Deliver? {
        DeliverSuccess(b, s, a.sequence, a.id);
      } else {
        QuietSuccess(b, s, a);
      }
      SuccessRun(b, Step(b, s, a), run[1..]);
    }
  }

  /** For every acknowledging binding and every run in which deliveries of one message do not overlap
      and the acknowledgement of a success takes effect: a message whose action succeeded is never
      terminated, and as long as it is not settled its acknowledgement is under way. */
  lemma SuccessIsFinal(b: ConsumerBinding, run: seq<Action>, q: nat)
    requires !b.ackPolicy.AckNone? && Legal(b, EMPTY, run, Orderly)
    requires q in Run(b, EMPTY, run, Orderly).server.sources
    ensures
      var s := Run(b, EMPTY, run, Orderly);
      && (s.server.sources[q].status.Terminated? ==> !s.server.sources[q].succeeded)
      && (s.server.sources[q].succeeded && s.server.sources[q].status.Pending? ==> BeingAcked(s, q))
  {
    SuccessRun(b, EMPTY, run);
  }
}
