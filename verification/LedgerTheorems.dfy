/** Safety of the lease protocol over every schedule. */
module LedgerTheorems {
  import opened Options
  import opened Expiry
  import opened Ledger
  import opened LedgerInvariant

  /** A stronger hypothesis gives the same run under a weaker one. */
  lemma {:induction false} Weaken(w: World, run: seq<Action>, h: (World, Action) -> bool, g: (World, Action) -> bool)
    requires Legal(w, run, h) && forall w, a :: h(w, a) ==> g(w, a)
    ensures Legal(w, run, g) && Run(w, run, g) == Run(w, run, h)
    decreases |run|
  {
    if run != [] {
      Weaken(Step(w, run[0]), run[1..], h, g);
    }
  }

  // ---------------------------------------------------------------------------------------
  // Lease exclusion

  /** The owner of `t` was given the lease, the bucket last granted it beyond the current time,
      and the owner has not given it up. */
  predicate HoldsLease(b: Bucket, t: Token) {
    t in b.handed && t in b.granted && b.granted[t] > b.clock && t !in b.givenUp
  }

  /** The same, judged by the last expiry the owner was told about. */
  predicate BelievesLease(b: Bucket, t: Token) {
    t in b.handed && t in b.told && b.told[t] > b.clock && t !in b.givenUp
  }

  /** In every schedule at most one worker holds an unexpired lease. */
  lemma LeaseExclusion(w0: World, run: seq<Action>, t1: Token, t2: Token)
    requires Init(w0) && Legal(w0, run, Anything)
    requires HoldsLease(Run(w0, run, Anything).bucket, t1) && HoldsLease(Run(w0, run, Anything).bucket, t2)
    ensures t1 == t2
  {
    InitInv(w0);
    RunInv(w0, run, Anything);
    var b := Run(w0, run, Anything).bucket;
    assert InBucket(b, t1) && InBucket(b, t2);
  }

  /** No extension whose acknowledgement is lost ends before the expiry its owner was told. */
  predicate NoLostShortening(w: World, a: Action) {
    a.Advance? && a.reply.Lost? && a.id in w.ops && (w.ops[a.id].RenewWrite? || w.ops[a.id].CompleteExtend?)
    ==> w.ops[a.id].token in w.bucket.told && w.ops[a.id].next.exp >= w.bucket.told[w.ops[a.id].token]
  }

  ghost predicate ToldWithinGranted(b: Bucket) {
    forall t :: t in b.handed && t in b.told && t in b.granted ==> b.told[t] <= b.granted[t]
  }

  lemma ToldStep(w: World, a: Action)
    requires Inv(w) && Enabled(w, a) && NoLostShortening(w, a) && ToldWithinGranted(w.bucket)
    ensures ToldWithinGranted(Step(w, a).bucket)
  {
    if a.Advance? {
      assert OpOk(w.bucket, w.ops[a.id]);
    }
  }

  lemma {:induction false} ToldRun(w: World, run: seq<Action>)
    requires Inv(w) && ToldWithinGranted(w.bucket) && Legal(w, run, NoLostShortening)
    ensures Inv(Run(w, run, NoLostShortening)) && ToldWithinGranted(Run(w, run, NoLostShortening).bucket)
    decreases |run|
  {
    if run != [] {
      StepInv(w, run[0]);
      ToldStep(w, run[0]);
      ToldRun(Step(w, run[0]), run[1..]);
    }
  }

  /** Exclusion as the workers see it, as long as no shortening extension loses its reply. */
  lemma ToldLeaseExclusion(w0: World, run: seq<Action>, t1: Token, t2: Token)
    requires Init(w0) && Legal(w0, run, NoLostShortening)
    requires BelievesLease(Run(w0, run, NoLostShortening).bucket, t1)
    requires BelievesLease(Run(w0, run, NoLostShortening).bucket, t2)
    ensures t1 == t2
  {
    InitInv(w0);
    ToldRun(w0, run);
    var b := Run(w0, run, NoLostShortening).bucket;
    assert InBucket(b, t1) && InBucket(b, t2);
  }

  // ---------------------------------------------------------------------------------------
  // What may happen to a claim

  /** The call an action moves, if it is a write the bucket accepted. */
  predicate Lands(w: World, a: Action) {
    a.Advance? && a.id in w.ops && Write?(w.ops[a.id]) && !a.reply.Refused?
  }

  /** What one step may make of a claim. */
  ghost predicate LawfulStep(w: World, a: Action)
    requires Enabled(w, a) && w.bucket.claim.Present?
  {
    var c, slot := w.bucket.claim.value, Step(w, a).bucket.claim;
    && (slot != w.bucket.claim ==> Lands(w, a))
    && (slot.Present? && slot != w.bucket.claim ==>
          var op := w.ops[a.id];
          if op.ClaimWrite?() then
            c.exp <= w.bucket.clock && (c.hash == "" || slot.value.hash == c.hash)
          else
            (op.RenewWrite? || op.CompleteExtend?) && op.token == c.token
            && slot.value.token == c.token && slot.value.hash == c.hash)
    && (!slot.Present? ==>
          var op := w.ops[a.id];
          (op.CompleteDelete? || op.ReleaseDelete?) && op.token == c.token && c.token in w.bucket.handed)
  }

  lemma StepLawful(w: World, a: Action)
    requires Inv(w) && Enabled(w, a) && w.bucket.claim.Present?
    ensures LawfulStep(w, a)
  {
    if a.Advance? {
      assert OpOk(w.bucket, w.ops[a.id]);
    }
  }

  /** In every reachable state a claim in the bucket is never found corrupted, and the next step
      leaves it alone, or extends it by a call of its own token with its request hash kept, or
      takes it over after it expired by a request with the same hash, or deletes it by a call of
      its own token. */
  lemma ClaimLaw(w0: World, run: seq<Action>, a: Action)
    requires Init(w0) && Legal(w0, run, Anything) && Enabled(Run(w0, run, Anything), a)
    requires Run(w0, run, Anything).bucket.claim.Present?
    ensures Sound(Run(w0, run, Anything).bucket.claim.value)
    ensures LawfulStep(Run(w0, run, Anything), a)
  {
    InitInv(w0);
    RunInv(w0, run, Anything);
    StepLawful(Run(w0, run, Anything), a);
  }

  // ---------------------------------------------------------------------------------------
  // Fencing

  /** A token that was handed out and whose claim is no longer in the bucket. */
  predicate Fenced(b: Bucket, t: Token) {
    t in b.handed && !InBucket(b, t)
  }

  predicate Renewal(op: Op, t: Token) {
    (op.RenewGet? || op.RenewRead? || op.RenewWrite?) && op.token == t
  }

  predicate BeforeEntryWrite(op: Op, t: Token) {
    (op.CompleteStart? || op.CompleteGet? || op.CompleteRead? || op.CompleteExtend?) && op.token == t
  }

  /** What a call may become once its token is fenced. */
  predicate Refusing(op: Op, op': Op, t: Token) {
    && (Renewal(op, t) ==> Renewal(op', t) || op' == Done(Failed))
    && (BeforeEntryWrite(op, t) ==> BeforeEntryWrite(op', t) || op' == Done(Failed))
    && (op.Done? ==> op' == op)
  }

  lemma FencedBucket(b: Bucket, op: Op, reply: Reply, rev: nat, token: Token, t: Token)
    requires Core(b) && OpOk(b, op) && Possible(b, op, reply, rev, token) && Fenced(b, t)
    ensures Fenced(OpStep(b, op, reply, rev, token).0, t)
  {
  }

  lemma FencedOp(b: Bucket, op: Op, reply: Reply, rev: nat, token: Token, t: Token)
    requires Core(b) && OpOk(b, op) && Possible(b, op, reply, rev, token) && Fenced(b, t)
    ensures Refusing(op, OpStep(b, op, reply, rev, token).1, t)
  {
  }

  lemma FencedStep(w: World, a: Action, t: Token)
    requires Inv(w) && Enabled(w, a) && Fenced(w.bucket, t)
    ensures Fenced(Step(w, a).bucket, t)
    ensures forall id :: id in w.ops ==> id in Step(w, a).ops && Refusing(w.ops[id], Step(w, a).ops[id], t)
  {
    if a.Advance? {
      assert OpOk(w.bucket, w.ops[a.id]);
      FencedBucket(w.bucket, w.ops[a.id], a.reply, a.rev, a.token, t);
      FencedOp(w.bucket, w.ops[a.id], a.reply, a.rev, a.token, t);
    }
  }

  /** Once a handed-out token's claim has been replaced or deleted it never reappears; its
      renewals can only fail, and a Complete that has not extended by then never writes an entry. */
  lemma {:induction false} Fencing(w: World, run: seq<Action>, t: Token, id: nat)
    requires Inv(w) && Fenced(w.bucket, t) && Legal(w, run, Anything)
    ensures Fenced(Run(w, run, Anything).bucket, t)
    ensures id in w.ops ==>
      id in Run(w, run, Anything).ops && Refusing(w.ops[id], Run(w, run, Anything).ops[id], t)
    decreases |run|
  {
    if run != [] {
      StepInv(w, run[0]);
      FencedStep(w, run[0], t);
      Fencing(Step(w, run[0]), run[1..], t, id);
    }
  }

  // ---------------------------------------------------------------------------------------
  // Single publication

  /** Where a claim is written, a second lookup would still find no entry. */
  predicate VacantClaims(w: World, a: Action) {
    Lands(w, a) && w.ops[a.id].ClaimWrite?() ==> Vacant(w.bucket)
  }

  /** No entry write landed between a claim's lookup and its write. */
  predicate FreshClaims(w: World, a: Action) {
    Lands(w, a) && w.ops[a.id].ClaimWrite?() ==> w.ops[a.id].seen == w.bucket.puts
  }

  lemma FreshIsVacant(w: World, a: Action)
    requires Inv(w) && Enabled(w, a) && FreshClaims(w, a)
    ensures VacantClaims(w, a)
  {
    if Lands(w, a) {
      assert OpOk(w.bucket, w.ops[a.id]);
    }
  }

  /** In particular, a run in which no completion lands between a lookup and its claim write is one in
      which every claim is written while no entry can be found. */
  lemma {:induction false} FreshRun(w: World, run: seq<Action>)
    requires Inv(w) && Legal(w, run, FreshClaims)
    ensures Legal(w, run, VacantClaims) && Run(w, run, VacantClaims) == Run(w, run, FreshClaims)
    decreases |run|
  {
    if run != [] {
      StepInv(w, run[0]);
      FreshIsVacant(w, run[0]);
      FreshRun(Step(w, run[0]), run[1..]);
    }
  }

  /** Every entry write lands while its writer holds the lease. */
  predicate HeldPuts(w: World, a: Action) {
    Lands(w, a) && w.ops[a.id].CompletePut? ==> HoldsLease(w.bucket, w.ops[a.id].token)
  }

  predicate Protected(w: World, a: Action) {
    VacantClaims(w, a) && HeldPuts(w, a)
  }

  /** While an entry can be found, only its publisher's claim can be in the bucket. */
  ghost predicate Published(b: Bucket) {
    b.claim.Present? && !Vacant(b) ==> b.publisher == Some(b.claim.value.token)
  }

  lemma PublishedStep(w: World, a: Action)
    requires Inv(w) && Enabled(w, a) && Protected(w, a) && Published(w.bucket)
    ensures Published(Step(w, a).bucket)
  {
    if a.Advance? {
      assert OpOk(w.bucket, w.ops[a.id]);
    }
  }

  lemma {:induction false} PublishedRun(w: World, run: seq<Action>)
    requires Inv(w) && Published(w.bucket) && Legal(w, run, Protected)
    ensures Inv(Run(w, run, Protected)) && Published(Run(w, run, Protected).bucket)
    decreases |run|
  {
    if run != [] {
      StepInv(w, run[0]);
      PublishedStep(w, run[0]);
      PublishedRun(Step(w, run[0]), run[1..]);
    }
  }

  /** An entry write lands on behalf of token `t`. */
  predicate Publishes(w: World, a: Action, t: Token) {
    Lands(w, a) && w.ops[a.id].CompletePut? && w.ops[a.id].token == t
  }

  /** In every protected schedule, an entry that can still be found is only ever overwritten by
      the token that published it. */
  lemma SinglePublication(w0: World, run: seq<Action>, a: Action, t: Token)
    requires Init(w0) && Legal(w0, run, Protected)
    requires Enabled(Run(w0, run, Protected), a) && Protected(Run(w0, run, Protected), a)
    requires Publishes(Run(w0, run, Protected), a, t)
    ensures Vacant(Run(w0, run, Protected).bucket) || Run(w0, run, Protected).bucket.publisher == Some(t)
  {
    InitInv(w0);
    PublishedRun(w0, run);
    assert InBucket(Run(w0, run, Protected).bucket, t);
  }

  // ---------------------------------------------------------------------------------------
  // The same under the discipline of executeWithCoordinator

  /** A call made with a token, still running. */
  predicate Owner(op: Op) {
    || op.RenewGet? || op.RenewRead? || op.RenewWrite?
    || op.CompleteStart? || op.CompleteGet? || op.CompleteRead? || op.CompleteExtend?
    || op.CompletePut? || op.CompleteDelete? || op.ReleaseGet? || op.ReleaseDelete?
  }

  ghost predicate Idle(ops: map<nat, Op>, t: Token) {
    forall i :: i in ops && Owner(ops[i]) ==> ops[i].token != t
  }

  /** Calls of one token follow one another, each claim is written while no entry can be found, and
      each entry write lands before the lease extended for it ends. */
  ghost predicate Disciplined(w: World, a: Action) {
    && (a.Spawn? && Owner(a.op) ==> Idle(w.ops, a.op.token))
    && VacantClaims(w, a)
    && (Lands(w, a) && w.ops[a.id].CompletePut? ==> w.bucket.clock < w.ops[a.id].exp)
  }

  /** One call per token, and a Complete about to write its entry still has the lease it extended. */
  ghost predicate Serial(w: World) {
    && (forall i, j :: i in w.ops && j in w.ops && i != j && Owner(w.ops[i]) && Owner(w.ops[j])
          ==> w.ops[i].token != w.ops[j].token)
    && (forall i :: i in w.ops && w.ops[i].CompletePut? ==> Covered(w.bucket, w.ops[i].token, w.ops[i].exp))
  }

  ghost predicate Covered(b: Bucket, t: Token, exp: int) {
    t in b.handed && t in b.granted && b.granted[t] == exp && t !in b.givenUp
  }

  lemma DisciplinedProtects(w: World, a: Action)
    requires Inv(w) && Serial(w) && Enabled(w, a) && Disciplined(w, a)
    ensures Protected(w, a)
  {
  }

  predicate Acts(op: Op, t: Token) {
    (Owner(op) && op.token == t) || (op.Candidate?() && op.mine.token == t)
  }

  /** A call changes the standing of no token but its own, and keeps its token. */
  lemma OwnTokenOnly(b: Bucket, op: Op, reply: Reply, rev: nat, token: Token, t: Token, exp: int)
    requires Core(b) && OpOk(b, op) && Possible(b, op, reply, rev, token)
    requires !Acts(op, t) && Covered(b, t, exp)
    ensures Covered(OpStep(b, op, reply, rev, token).0, t, exp)
  {
  }

  lemma OwnerNext(b: Bucket, op: Op, reply: Reply, rev: nat, token: Token)
    requires !op.Done?
    ensures
      var op' := OpStep(b, op, reply, rev, token).1;
      && (Owner(op') ==> Owner(op) && op'.token == op.token)
      && (op'.CompletePut? ==> op.CompleteExtend? && reply.Acked?)
  {
  }

  lemma ExtendCovers(b: Bucket, op: Op, rev: nat)
    requires Core(b) && OpOk(b, op) && op.CompleteExtend? && At(b.claim, op.rev)
    ensures var (b', op') := CompleteStep(b, op, Acked, rev); Covered(b', op'.token, op'.exp)
  {
  }

  lemma SerialCovered(w: World, a: Action, i: nat)
    requires Inv(w) && Enabled(w, a) && Serial(w) && a.Advance?
    requires i in Step(w, a).ops && Step(w, a).ops[i].CompletePut?
    ensures Covered(Step(w, a).bucket, Step(w, a).ops[i].token, Step(w, a).ops[i].exp)
  {
    var op := w.ops[a.id];
    assert OpOk(w.bucket, op) && OpOk(w.bucket, w.ops[i]);
    OwnerNext(w.bucket, op, a.reply, a.rev, a.token);
    if i != a.id {
      OwnTokenOnly(w.bucket, op, a.reply, a.rev, a.token, w.ops[i].token, w.ops[i].exp);
    } else {
      ExtendCovers(w.bucket, op, a.rev);
    }
  }

  lemma SerialStep(w: World, a: Action)
    requires Inv(w) && Enabled(w, a) && Disciplined(w, a) && Serial(w)
    ensures Serial(Step(w, a))
  {
    if a.Advance? {
      OwnerNext(w.bucket, w.ops[a.id], a.reply, a.rev, a.token);
      forall i | i in Step(w, a).ops && Step(w, a).ops[i].CompletePut?
        ensures Covered(Step(w, a).bucket, Step(w, a).ops[i].token, Step(w, a).ops[i].exp)
      {
        SerialCovered(w, a, i);
      }
    }
  }

  lemma {:induction false} DisciplinedRun(w: World, run: seq<Action>)
    requires Inv(w) && Serial(w) && Legal(w, run, Disciplined)
    ensures Legal(w, run, Protected) && Run(w, run, Protected) == Run(w, run, Disciplined)
    ensures Inv(Run(w, run, Disciplined)) && Serial(Run(w, run, Disciplined))
    decreases |run|
  {
    if run != [] {
      StepInv(w, run[0]);
      DisciplinedProtects(w, run[0]);
      SerialStep(w, run[0]);
      DisciplinedRun(Step(w, run[0]), run[1..]);
    }
  }

  lemma DisciplinedSinglePublication(w0: World, run: seq<Action>, a: Action, t: Token)
    requires Init(w0) && Legal(w0, run, Disciplined)
    requires Enabled(Run(w0, run, Disciplined), a) && Disciplined(Run(w0, run, Disciplined), a)
    requires Publishes(Run(w0, run, Disciplined), a, t)
    ensures Vacant(Run(w0, run, Disciplined).bucket) || Run(w0, run, Disciplined).bucket.publisher == Some(t)
  {
    InitInv(w0);
    DisciplinedRun(w0, run);
    DisciplinedProtects(Run(w0, run, Disciplined), a);
    SinglePublication(w0, run, a, t);
  }

  // ---------------------------------------------------------------------------------------
  // Replay integrity

  lemma {:induction false} FirstStays(w: World, run: seq<Action>)
    requires Inv(w) && Legal(w, run, Anything)
    ensures Run(w, run, Anything).bucket.first == w.bucket.first
    decreases |run|
  {
    if run != [] {
      StepInv(w, run[0]);
      StepKeepsFirst(w, run[0]);
      FirstStays(Step(w, run[0]), run[1..]);
    }
  }

  lemma StepKeepsFirst(w: World, a: Action)
    requires Enabled(w, a)
    ensures Step(w, a).bucket.first == w.bucket.first
  {
  }

  /** A Claim that replays entry `e` to a request with hash `h` replays something recorded for
      that very hash (or for none): either an entry some execution that claimed with the entry's
      hash handed to Complete, or one the bucket held from the start. */
  lemma ReplayIntegrity(w0: World, run: seq<Action>, a: Action, e: Entry)
    requires Init(w0) && Legal(w0, run, Anything) && Enabled(Run(w0, run, Anything), a)
    requires a.Advance? && Run(w0, run, Anything).ops[a.id].Looked?
    requires Step(Run(w0, run, Anything), a).ops[a.id] == Done(Completed(e))
    ensures
      var w := Run(w0, run, Anything);
      var op := w.ops[a.id];
      && (e.requestHash == "" || e.requestHash == op.hash)
      && match op.author {
           case Some(t) => (t, e) in w.bucket.outputs && t in w.bucket.hashes && w.bucket.hashes[t] == e.requestHash
           case None => w0.bucket.entry.Present? && DecodeEntry(w0.bucket.entry.value, w.bucket.clock) == Found(e)
         }
  {
    InitInv(w0);
    RunInv(w0, run, Anything);
    FirstStays(w0, run);
    var w := Run(w0, run, Anything);
    assert OpOk(w.bucket, w.ops[a.id]);
    if w.ops[a.id].author.Some? {
      assert Produced(w.bucket, w.ops[a.id].author.value, e);
    }
  }

  /** And nothing else replays: a call that ends as a replay has just looked the entry up. */
  lemma OnlyLookupsReplay(w: World, a: Action, id: nat, e: Entry)
    requires Enabled(w, a) && id in w.ops && w.ops[id] != Done(Completed(e)) && Step(w, a).ops[id] == Done(Completed(e))
    ensures a.Advance? && a.id == id && w.ops[id].Looked?
  {
  }
}
