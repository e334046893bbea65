/** When a worker may trust the lease it was told of: the configured lease against the default one.

    A renewal or completion whose acknowledgement is lost leaves its owner with the expiry it was
    told before. That is safe as long as no extension ends earlier than the owner was told, and
    Complete always extends by the default lease, whatever lease the claim was made with. */
module LedgerLease {
  import opened Options
  import opened Expiry
  import opened Ledger
  import opened LedgerInvariant
  import opened LedgerTheorems
  import opened LedgerRuns

  /** Complete was called with token `t`. */
  ghost predicate Completing(b: Bucket, t: Token) {
    exists e :: (t, e) in b.outputs
  }

  /** A token is not renewed once its Complete has been called, nor completed while it is being
      renewed: executeWithCoordinator stops renewing first. */
  ghost predicate RenewedFirst(w: World, op: Op) {
    && (op.RenewGet? ==> !Completing(w.bucket, op.token))
    && (op.CompleteStart? ==> forall i :: i in w.ops ==> !Renewal(w.ops[i], op.token))
  }

  /** Every Claim and every RenewClaim asks for the same lease, directly or by default. When it is not
      the default lease, renewals also end before Complete is called. */
  ghost predicate CommonLease(lease: int, w: World, a: Action) {
    a.Spawn? ==>
      && (a.op.Lookup? || a.op.RenewGet? ==> EffectiveTTL(w.bucket, a.op.ttl) == lease)
      && (lease != w.bucket.lease0 ==> RenewedFirst(w, a.op))
  }

  ghost function Common(lease: int): (World, Action) -> bool {
    (w, a) => CommonLease(lease, w, a)
  }

  // ---------------------------------------------------------------------------------------
  // A lease no longer than the default

  predicate Renewable(b: Bucket, lease: int, completing: bool) {
    lease == b.lease0 || !completing
  }

  /** Nobody was told of an expiry further away than a lease. */
  ghost predicate ToldInReach(b: Bucket, lease: int) {
    forall t :: t in b.told ==> b.told[t] <= b.clock + if Completing(b, t) then b.lease0 else lease
  }

  /** If this extension lands, its owner was not told of a later expiry. */
  predicate NoShorter(b: Bucket, t: Token, rev: nat, exp: int) {
    At(b.claim, rev) && t in b.told ==> b.told[t] <= exp
  }

  ghost predicate LeaseOk(b: Bucket, lease: int, op: Op) {
    match op
    case Lookup(_, ttl) => EffectiveTTL(b, ttl) == lease
    case Looked(_, ttl, _, _, _) => ttl == lease
    case Drawing(_, ttl, _) => ttl == lease
    case Creating(mine, _, _) => mine.exp <= b.clock + lease
    case Inspecting(mine, _, _, _) => mine.exp <= b.clock + lease
    case Recreating(mine, _, _) => mine.exp <= b.clock + lease
    case Replacing(mine, _, _, _) => mine.exp <= b.clock + lease
    case RenewGet(t, ttl) => EffectiveTTL(b, ttl) == lease && Renewable(b, lease, Completing(b, t))
    case RenewRead(t, ttl, _, _) => ttl == lease && Renewable(b, lease, Completing(b, t))
    case RenewWrite(t, rev, next) =>
      && Renewable(b, lease, Completing(b, t))
      && next.exp <= b.clock + lease && NoShorter(b, t, rev, next.exp)
    case CompleteExtend(t, _, rev, next) => next.exp <= b.clock + b.lease0 && NoShorter(b, t, rev, next.exp)
    case _ => true
  }

  ghost predicate LeaseInv(w: World, lease: int) {
    && 0 < lease <= w.bucket.lease0
    && ToldInReach(w.bucket, lease)
    && forall i :: i in w.ops ==> LeaseOk(w.bucket, lease, w.ops[i])
  }

  /** What a step may change, as far as another call's lease is concerned. */
  ghost predicate Mild(b: Bucket, b': Bucket) {
    && b.clock <= b'.clock && b'.lease0 == b.lease0 && b'.outputs == b.outputs
    && ((b'.told == b.told && b'.claim == b.claim) || (!b'.claim.Absent? && b'.claim.rev > b.lastRev))
  }

  lemma LeaseStable(b: Bucket, b': Bucket, lease: int, op: Op)
    requires OpOk(b, op) && LeaseOk(b, lease, op) && Mild(b, b')
    ensures LeaseOk(b', lease, op)
  {
  }

  lemma StepMild(b: Bucket, op: Op, reply: Reply, rev: nat, token: Token)
    requires Possible(b, op, reply, rev, token)
    ensures Mild(b, OpStep(b, op, reply, rev, token).0)
  {
  }

  /** A call tells its caller of nothing but the expiry it has written. */
  ghost predicate Tells(b: Bucket, b': Bucket, op: Op) {
    && b'.clock == b.clock && b'.lease0 == b.lease0 && b'.outputs == b.outputs
    && (|| b'.told == b.told
        || (op.Candidate?() && b'.told == b.told[op.mine.token := op.mine.exp])
        || ((op.RenewWrite? || op.CompleteExtend?) && b'.told == b.told[op.next.token := op.next.exp]))
  }

  lemma StepTells(b: Bucket, op: Op, reply: Reply, rev: nat, token: Token)
    requires !op.Done?
    ensures Tells(b, OpStep(b, op, reply, rev, token).0, op)
  {
  }

  lemma TellInReach(b: Bucket, b': Bucket, lease: int, op: Op)
    requires OpOk(b, op) && 0 < lease <= b.lease0 && ToldInReach(b, lease) && LeaseOk(b, lease, op) && Tells(b, b', op)
    ensures ToldInReach(b', lease)
  {
    assert forall t :: Completing(b', t) == Completing(b, t);
    if op.CompleteExtend? {
      assert (op.token, op.raw.entry.value) in b.outputs;
    }
  }

  lemma ClaimLeaseOk(b: Bucket, lease: int, op: Op, reply: Reply, rev: nat, token: Token)
    requires op.Lookup? || op.Looked? || op.Drawing? || op.Candidate?()
    requires OpOk(b, op) && 0 < lease && LeaseOk(b, lease, op)
    ensures var (b', op') := ClaimStep(b, op, reply, rev, token); LeaseOk(b', lease, op')
  {
  }

  lemma RenewLeaseOk(b: Bucket, lease: int, op: Op, reply: Reply, rev: nat)
    requires op.RenewGet? || op.RenewRead? || op.RenewWrite?
    requires Core(b) && OpOk(b, op) && 0 < lease <= b.lease0 && ToldInReach(b, lease) && LeaseOk(b, lease, op)
    ensures var (b', op') := RenewStep(b, op, reply, rev); LeaseOk(b', lease, op')
  {
  }

  lemma CompleteLeaseOk(b: Bucket, lease: int, op: Op, reply: Reply, rev: nat)
    requires op.CompleteGet? || op.CompleteRead?
    requires Core(b) && OpOk(b, op) && 0 < lease <= b.lease0 && ToldInReach(b, lease)
    ensures var (b', op') := CompleteStep(b, op, reply, rev); LeaseOk(b', lease, op')
  {
  }

  /** The other steps of these calls carry no expiry of their own. */
  lemma RestLeaseOk(b: Bucket, lease: int, op: Op, reply: Reply, rev: nat)
    requires || op.CompleteStart? || op.CompleteExtend? || op.CompletePut? || op.CompleteDelete?
             || op.ReleaseGet? || op.ReleaseDelete?
    ensures LeaseOk(OpStep(b, op, reply, rev, "").0, lease, OpStep(b, op, reply, rev, "").1)
  {
  }

  lemma StepLeaseOk(b: Bucket, lease: int, op: Op, reply: Reply, rev: nat, token: Token)
    requires Core(b) && OpOk(b, op) && Possible(b, op, reply, rev, token)
    requires 0 < lease <= b.lease0 && ToldInReach(b, lease) && LeaseOk(b, lease, op)
    ensures var (b', op') := OpStep(b, op, reply, rev, token); LeaseOk(b', lease, op')
  {
    if op.RenewGet? || op.RenewRead? || op.RenewWrite? {
      RenewLeaseOk(b, lease, op, reply, rev);
    } else if op.CompleteGet? || op.CompleteRead? {
      CompleteLeaseOk(b, lease, op, reply, rev);
    } else if Owner(op) {
      RestLeaseOk(b, lease, op, reply, rev);
    } else {
      ClaimLeaseOk(b, lease, op, reply, rev, token);
    }
  }

  lemma AdvanceLease(w: World, a: Action, lease: int)
    requires Inv(w) && LeaseInv(w, lease) && Enabled(w, a) && a.Advance?
    ensures LeaseInv(Step(w, a), lease)
  {
    var b, op := w.bucket, w.ops[a.id];
    assert OpOk(b, op);
    StepMild(b, op, a.reply, a.rev, a.token);
    StepTells(b, op, a.reply, a.rev, a.token);
    TellInReach(b, Step(w, a).bucket, lease, op);
    StepLeaseOk(b, lease, op, a.reply, a.rev, a.token);
    forall i | i in w.ops && i != a.id ensures LeaseOk(Step(w, a).bucket, lease, w.ops[i]) {
      LeaseStable(b, Step(w, a).bucket, lease, w.ops[i]);
    }
  }

  /** A new call makes at most its own token a completing one. */
  lemma SpawnCompletes(w: World, a: Action, t: Token)
    requires Enabled(w, a) && a.Spawn?
    ensures Completing(w.bucket, t) ==> Completing(Step(w, a).bucket, t)
    ensures Completing(Step(w, a).bucket, t) ==> Completing(w.bucket, t) || (a.op.CompleteStart? && a.op.token == t)
  {
    var b, b' := w.bucket, Step(w, a).bucket;
    if Completing(b, t) {
      var e :| (t, e) in b.outputs;
      assert (t, e) in b'.outputs;
    } else if Completing(b', t) {
      var e :| (t, e) in b'.outputs;
      assert (t, e) !in b.outputs;
    }
  }

  lemma SpawnOthers(w: World, a: Action, lease: int, i: nat)
    requires Inv(w) && LeaseInv(w, lease) && Enabled(w, a) && CommonLease(lease, w, a) && a.Spawn? && i in w.ops
    ensures LeaseOk(Step(w, a).bucket, lease, w.ops[i])
  {
    assert LeaseOk(w.bucket, lease, w.ops[i]);
    if w.ops[i].RenewGet? || w.ops[i].RenewRead? || w.ops[i].RenewWrite? {
      SpawnCompletes(w, a, w.ops[i].token);
      assert Renewal(w.ops[i], w.ops[i].token);
    }
  }

  lemma SpawnLease(w: World, a: Action, lease: int)
    requires Inv(w) && LeaseInv(w, lease) && Enabled(w, a) && CommonLease(lease, w, a) && a.Spawn?
    ensures LeaseInv(Step(w, a), lease)
  {
    forall t | t in w.bucket.told ensures
      w.bucket.told[t] <= w.bucket.clock + if Completing(Step(w, a).bucket, t) then w.bucket.lease0 else lease
    {
      SpawnCompletes(w, a, t);
    }
    forall i | i in w.ops ensures LeaseOk(Step(w, a).bucket, lease, w.ops[i]) {
      SpawnOthers(w, a, lease, i);
    }
    if a.op.RenewGet? {
      SpawnCompletes(w, a, a.op.token);
    }
  }

  lemma TickLease(w: World, now: int, lease: int)
    requires Inv(w) && LeaseInv(w, lease) && w.bucket.clock <= now
    ensures LeaseInv(w.(bucket := w.bucket.(clock := now)), lease)
  {
    var b' := w.bucket.(clock := now);
    assert forall t :: Completing(b', t) == Completing(w.bucket, t);
    forall i | i in w.ops ensures LeaseOk(b', lease, w.ops[i]) {
      LeaseStable(w.bucket, b', lease, w.ops[i]);
    }
  }

  /** No reply that is lost then hides a shortening. */
  lemma NoShortening(w: World, a: Action, lease: int)
    requires Inv(w) && LeaseInv(w, lease) && Enabled(w, a)
    ensures NoLostShortening(w, a)
  {
    if a.Advance? && a.reply.Lost? {
      assert OpOk(w.bucket, w.ops[a.id]) && LeaseOk(w.bucket, lease, w.ops[a.id]);
    }
  }

  lemma {:induction false} CommonRun(w: World, run: seq<Action>, lease: int)
    requires Inv(w) && LeaseInv(w, lease) && Legal(w, run, Common(lease))
    ensures Legal(w, run, NoLostShortening)
    ensures Run(w, run, NoLostShortening) == Run(w, run, Common(lease))
    decreases |run|
  {
    if run != [] {
      var a := run[0];
      assert CommonLease(lease, w, a);
      StepInv(w, a);
      NoShortening(w, a, lease);
      match a {
        case Tick(now) => TickLease(w, now, lease);
        case Spawn(_, _) => SpawnLease(w, a, lease);
        case Advance(_, _, _, _) => AdvanceLease(w, a, lease);
        case Abort(_) =>
      }
      CommonRun(Step(w, a), run[1..], lease);
    }
  }

  // ---------------------------------------------------------------------------------------
  // A lease so long that no claim can follow another

  /** Every claim lasts at least a default lease, and every Claim call read the clock before that. */
  predicate LongOk(b: Bucket, lease: int, op: Op) {
    match op
    case Lookup(_, ttl) => EffectiveTTL(b, ttl) == lease
    case Looked(_, ttl, _, _, _) => ttl == lease
    case Drawing(_, ttl, _) => ttl == lease
    case Creating(mine, now, _) => mine.exp == now + lease <= MAX_NANO
    case Inspecting(mine, now, _, _) => mine.exp == now + lease <= MAX_NANO
    case Recreating(mine, now, _) => mine.exp == now + lease <= MAX_NANO
    case Replacing(mine, now, _, _) => mine.exp == now + lease <= MAX_NANO
    case RenewGet(_, ttl) => EffectiveTTL(b, ttl) == lease
    case RenewRead(_, ttl, _, _) => ttl == lease
    case RenewWrite(_, _, next) => next.exp >= b.lease0
    case CompleteExtend(_, _, _, next) => next.exp >= b.lease0
    case _ => true
  }

  /** So nothing is ever taken over: a token that was handed out is in the bucket or was given up. */
  ghost predicate LongCore(b: Bucket) {
    && (b.claim.Present? ==> b.claim.value.exp >= b.lease0)
    && forall t :: t in b.handed && t !in b.givenUp ==> InBucket(b, t)
  }

  predicate TooLong(b: Bucket, lease: int) {
    b.lease0 < lease && b.lease0 + lease > MAX_NANO
  }

  ghost predicate LongInv(w: World, lease: int) {
    && TooLong(w.bucket, lease) && LongCore(w.bucket)
    && forall i :: i in w.ops ==> LongOk(w.bucket, lease, w.ops[i])
  }

  lemma StepLongCore(b: Bucket, lease: int, op: Op, reply: Reply, rev: nat, token: Token)
    requires Core(b) && OpOk(b, op) && Possible(b, op, reply, rev, token)
    requires TooLong(b, lease) && LongCore(b) && LongOk(b, lease, op)
    ensures LongCore(OpStep(b, op, reply, rev, token).0)
  {
  }

  lemma ClaimLongOk(b: Bucket, lease: int, op: Op, reply: Reply, rev: nat, token: Token)
    requires op.Lookup? || op.Looked? || op.Drawing? || op.Candidate?()
    requires Core(b) && OpOk(b, op) && TooLong(b, lease) && LongOk(b, lease, op)
    ensures var (b', op') := ClaimStep(b, op, reply, rev, token); LongOk(b', lease, op')
  {
  }

  lemma RenewLongOk(b: Bucket, lease: int, op: Op, reply: Reply, rev: nat)
    requires op.RenewGet? || op.RenewRead? || op.RenewWrite?
    requires Core(b) && OpOk(b, op) && TooLong(b, lease) && LongOk(b, lease, op)
    ensures var (b', op') := RenewStep(b, op, reply, rev); LongOk(b', lease, op')
  {
  }

  lemma FinishLongOk(b: Bucket, lease: int, op: Op, reply: Reply, rev: nat)
    requires Owner(op) && !op.RenewGet? && !op.RenewRead? && !op.RenewWrite?
    requires Core(b) && OpOk(b, op) && TooLong(b, lease)
    ensures var (b', op') := OpStep(b, op, reply, rev, ""); LongOk(b', lease, op')
  {
  }

  lemma StepLongOk(b: Bucket, lease: int, op: Op, reply: Reply, rev: nat, token: Token)
    requires Core(b) && OpOk(b, op) && Possible(b, op, reply, rev, token)
    requires TooLong(b, lease) && LongOk(b, lease, op)
    ensures var (b', op') := OpStep(b, op, reply, rev, token); LongOk(b', lease, op')
  {
    if op.RenewGet? || op.RenewRead? || op.RenewWrite? {
      RenewLongOk(b, lease, op, reply, rev);
    } else if Owner(op) {
      FinishLongOk(b, lease, op, reply, rev);
    } else {
      ClaimLongOk(b, lease, op, reply, rev, token);
    }
  }

  lemma LongStable(b: Bucket, b': Bucket, lease: int, op: Op)
    requires LongOk(b, lease, op) && b'.lease0 == b.lease0
    ensures LongOk(b', lease, op)
  {
  }

  lemma AdvanceLong(w: World, a: Action, lease: int)
    requires Inv(w) && LongInv(w, lease) && Enabled(w, a) && a.Advance?
    ensures LongInv(Step(w, a), lease)
  {
    var b, op := w.bucket, w.ops[a.id];
    assert OpOk(b, op);
    StepMild(b, op, a.reply, a.rev, a.token);
    StepLongCore(b, lease, op, a.reply, a.rev, a.token);
    StepLongOk(b, lease, op, a.reply, a.rev, a.token);
    forall i | i in w.ops && i != a.id ensures LongOk(Step(w, a).bucket, lease, w.ops[i]) {
      LongStable(b, Step(w, a).bucket, lease, w.ops[i]);
    }
  }

  lemma StepLong(w: World, a: Action, lease: int)
    requires Inv(w) && LongInv(w, lease) && Enabled(w, a) && CommonLease(lease, w, a)
    ensures LongInv(Step(w, a), lease)
  {
    if a.Advance? {
      AdvanceLong(w, a, lease);
    } else {
      forall i | i in w.ops ensures LongOk(Step(w, a).bucket, lease, w.ops[i]) {
        LongStable(w.bucket, Step(w, a).bucket, lease, w.ops[i]);
      }
    }
  }

  lemma {:induction false} LongRun(w: World, run: seq<Action>, lease: int)
    requires Inv(w) && LongInv(w, lease) && Legal(w, run, Common(lease))
    ensures Inv(Run(w, run, Common(lease))) && LongInv(Run(w, run, Common(lease)), lease)
    decreases |run|
  {
    if run != [] {
      assert CommonLease(lease, w, run[0]);
      StepInv(w, run[0]);
      StepLong(w, run[0], lease);
      LongRun(Step(w, run[0]), run[1..], lease);
    }
  }

  // ---------------------------------------------------------------------------------------
  // Any other lease

  /** Complete's extension cuts the lease to the default one, its acknowledgement is lost and time
      passes to the end of the shorter lease. */
  lemma Shorten(w: World, lease: int, lease0: int) returns (run: seq<Action>, w': World)
    requires 0 < lease0 < lease && lease0 + lease <= MAX_NANO
    requires w == World(Claimed(StartWith(lease0).bucket, Claim("a", "h", lease), 1), map[0 := Done(Acquired("a"))])
    ensures Legal(w, run, Common(lease)) && Run(w, run, Common(lease)) == w' && 2 !in w'.ops
    ensures
      var b := w'.bucket;
      && b.clock == lease0 && b.lease0 == lease0 && b.lastRev == 2 && b.claim == Present(2, Claim("a", "h", lease0))
      && b.entry.Absent? && b.hashes.Keys == {"a"} && b.handed == {"a"} && b.told == map["a" := lease] && b.givenUp == {}
  {
    var hyp := Common(lease);
    var first := CompleteUpToRead(w, 1, FIRST, 0, hyp);
    var w2 := Run(w, first, hyp);
    var second := LostExtension(w2, 1, "a", Wrapped(Some(FIRST), 0), 2, hyp);
    Concat(w, first, second, hyp);
    var w3 := Run(w2, second, hyp);
    w' := w3.(bucket := w3.bucket.(clock := lease0));
    Cons(w3, Tick(lease0), w', [], hyp);
    Concat(w, first + second, [Tick(lease0)] + [], hyp);
    run := first + second + ([Tick(lease0)] + []);
  }

  /** With any other lease longer than the default one there is a run in which two workers trust a
      lease at once: Complete's extension shortens the first one's lease, the acknowledgement is lost,
      and the second worker takes over. */
  lemma LostShortening(lease: int, lease0: int) returns (run: seq<Action>)
    requires 0 < lease0 < lease && lease0 + lease <= MAX_NANO
    ensures Init(StartWith(lease0)) && Legal(StartWith(lease0), run, Common(lease))
    ensures var b := Run(StartWith(lease0), run, Common(lease)).bucket; BelievesLease(b, "a") && BelievesLease(b, "b")
  {
    var start, hyp := StartWith(lease0), Common(lease);
    var w1 := World(Claimed(start.bucket, Claim("a", "h", lease), 1), map[0 := Done(Acquired("a"))]);
    var first := ClaimAlone(start, 0, Claim("a", "h", lease), lease, 1, hyp);
    var second, w2 := Shorten(w1, lease, lease0);
    Concat(start, first, second, hyp);
    assert "a"[0] != "b"[0];
    var third := TakeoverAlone(w2, 2, Claim("b", "h", lease0 + lease), lease, 3, hyp);
    Concat(start, first + second, third, hyp);
    run := first + second + third;
  }

  // ---------------------------------------------------------------------------------------
  // The exact condition

  ghost predicate Exclusive(b: Bucket) {
    forall t1, t2 :: BelievesLease(b, t1) && BelievesLease(b, t2) ==> t1 == t2
  }

  /** A run in which everybody asks for `lease` and the default is `lease0`. */
  ghost predicate CommonStart(w0: World, run: seq<Action>, lease: int, lease0: int) {
    Init(w0) && w0.bucket.lease0 == lease0 && Legal(w0, run, Common(lease))
  }

  /** In every such run at most one worker trusts a lease at any time. */
  ghost predicate AlwaysExclusive(lease: int, lease0: int) {
    forall w0, run | CommonStart(w0, run, lease, lease0) :: Exclusive(Run(w0, run, Common(lease)).bucket)
  }

  lemma ExclusiveRun(w0: World, run: seq<Action>, lease: int, lease0: int)
    requires 0 < lease && CommonStart(w0, run, lease, lease0)
    requires lease <= lease0 || lease0 + lease > MAX_NANO
    ensures Exclusive(Run(w0, run, Common(lease)).bucket)
  {
    InitInv(w0);
    var b := Run(w0, run, Common(lease)).bucket;
    forall t1, t2 | BelievesLease(b, t1) && BelievesLease(b, t2) ensures t1 == t2 {
      if lease <= lease0 {
        CommonRun(w0, run, lease);
        ToldLeaseExclusion(w0, run, t1, t2);
      } else {
        LongRun(w0, run, lease);
        assert InBucket(b, t1) && InBucket(b, t2);
      }
    }
  }

  /** Workers may trust the lease they were told of, whatever replies are lost, if and only if the
      lease in use is no longer than the default lease (or so long that no second claim fits into the
      clock). */
  lemma BelievedLeaseExclusion(lease: int, lease0: int)
    requires 0 < lease <= MAX_NANO && 0 < lease0 <= MAX_NANO
    ensures AlwaysExclusive(lease, lease0) <==> lease <= lease0 || lease0 + lease > MAX_NANO
  {
    if lease <= lease0 || lease0 + lease > MAX_NANO {
      forall w0, run | CommonStart(w0, run, lease, lease0) ensures Exclusive(Run(w0, run, Common(lease)).bucket) {
        ExclusiveRun(w0, run, lease, lease0);
      }
    } else {
      var run := LostShortening(lease, lease0);
      assert CommonStart(StartWith(lease0), run, lease, lease0);
      assert "a"[0] != "b"[0];
    }
  }
}
