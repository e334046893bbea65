/** What every step of the lease protocol keeps. */
module LedgerInvariant {
  import opened Options
  import opened Expiry
  import opened Ledger

  /** Claim lookups see no entry: there is none, or it has expired. */
  predicate Vacant(b: Bucket) {
    !b.entry.Present? || DecodeEntry(b.entry.value, b.clock).Missing?
  }

  predicate InBucket(b: Bucket, t: Token) {
    b.claim.Present? && b.claim.value.token == t
  }

  /** The bucket facts that do not mention running calls. */
  ghost predicate Core(b: Bucket) {
    && 0 <= b.clock <= MAX_NANO
    && 0 < b.lease0 <= MAX_NANO
    && b.handed <= b.hashes.Keys
    && b.granted.Keys <= b.hashes.Keys
    && b.givenUp <= b.handed
    && b.handed <= b.granted.Keys
    && b.handed <= b.told.Keys
    && (!b.claim.Absent? ==> b.claim.rev <= b.lastRev)
    && (b.claim.Present? ==> Recorded(b, b.claim.value))
    && (forall t :: t in b.granted && b.granted[t] > b.clock && t !in b.givenUp ==> InBucket(b, t))
    && Origin(b, b.entry, b.publisher)
    && (forall o :: o in b.outputs ==> Produced(b, o.0, o.1))
  }

  /** Token `t`'s execution produced `e`. */
  ghost predicate Produced(b: Bucket, t: Token, e: Entry) {
    Known(b, t) && e.requestHash == b.hashes[t]
  }

  /** The claim in the bucket is well formed and agrees with the history. */
  ghost predicate Recorded(b: Bucket, c: Claim) {
    && Sound(c)
    && c.token in b.hashes && b.hashes[c.token] == c.hash
    && c.token in b.granted && b.granted[c.token] == c.exp
    && c.token !in b.givenUp
  }

  /** A Claim call's pending claim: its token is known to nobody else yet, and as long as no entry
      write landed since its lookup there is no entry to be found. */
  ghost predicate Pending(b: Bucket, mine: Claim, now: int, seen: nat) {
    && mine.token != ""
    && mine.token in b.hashes && b.hashes[mine.token] == mine.hash
    && mine.token !in b.handed
    && 0 <= now <= b.clock
    && now < mine.exp
    && seen <= b.puts
    && (seen == b.puts ==> Vacant(b))
  }

  /** Revision `rev` belonged to a claim of token `t`, and a revision never comes back. */
  ghost predicate Snapshot(b: Bucket, rev: nat, t: Token) {
    rev <= b.lastRev && (At(b.claim, rev) ==> InBucket(b, t))
  }

  ghost predicate Known(b: Bucket, t: Token) {
    t in b.handed && t in b.hashes
  }

  ghost predicate Payload(b: Bucket, t: Token, raw: RawEntry) {
    raw.Wrapped? && raw.entry.Some? && (t, raw.entry.value) in b.outputs
  }

  /** An entry is what its publisher handed to Complete, or what was there from the start. */
  ghost predicate Origin(b: Bucket, found: Slot<RawEntry>, author: Option<Token>) {
    if author.Some? then found.Present? && Payload(b, author.value, found.value) else found == b.first
  }

  ghost predicate Held(b: Bucket, rev: nat, held: Claim) {
    held.token in b.hashes && held.hash == b.hashes[held.token] && Snapshot(b, rev, held.token)
  }

  ghost predicate Extension(b: Bucket, t: Token, rev: nat, next: Claim) {
    && Known(b, t) && next.token == t && Sound(next) && next.hash == b.hashes[t]
    && Snapshot(b, rev, t)
  }

  ghost predicate OpOk(b: Bucket, op: Op) {
    match op
    case Lookup(_, ttl) => Int64(ttl)
    case Looked(_, ttl, seen, found, author) =>
      0 < ttl <= MAX_NANO && seen <= b.puts && (seen == b.puts ==> found == b.entry) && Origin(b, found, author)
    case Drawing(_, ttl, seen) => 0 < ttl <= MAX_NANO && seen <= b.puts && (seen == b.puts ==> Vacant(b))
    case Creating(mine, now, seen) => Pending(b, mine, now, seen)
    case Inspecting(mine, now, seen, _) => Pending(b, mine, now, seen)
    case Recreating(mine, now, seen) => Pending(b, mine, now, seen)
    case Replacing(mine, now, seen, rev) =>
      && Pending(b, mine, now, seen)
      && rev <= b.lastRev
      && (At(b.claim, rev) ==> b.claim.Present? && ResolveClaim(b.claim.value, mine.hash, now).None?)
    case RenewGet(t, ttl) => Known(b, t) && Int64(ttl)
    case RenewRead(t, ttl, rev, held) => Known(b, t) && 0 < ttl <= MAX_NANO && Held(b, rev, held)
    case RenewWrite(t, rev, next) => Extension(b, t, rev, next)
    case CompleteStart(t, e, ttl) => Known(b, t) && (t, e) in b.outputs && Int64(ttl)
    case CompleteGet(t, raw) => Known(b, t) && Payload(b, t, raw)
    case CompleteRead(t, raw, rev, held) => Known(b, t) && Payload(b, t, raw) && Held(b, rev, held)
    case CompleteExtend(t, raw, rev, next) => Payload(b, t, raw) && Extension(b, t, rev, next)
    case CompletePut(t, raw, rev, exp) => Known(b, t) && Payload(b, t, raw) && Snapshot(b, rev, t)
    case CompleteDelete(t, rev) => Known(b, t) && Snapshot(b, rev, t)
    case ReleaseGet(t) => Known(b, t)
    case ReleaseDelete(t, rev) => Known(b, t) && Snapshot(b, rev, t)
    case Done(o) => o.Acquired? ==> o.token in b.handed
  }

  /** Two Claim calls never share a token. */
  ghost predicate Distinct(ops: map<nat, Op>) {
    forall i, j :: i in ops && j in ops && i != j && ops[i].Candidate?() && ops[j].Candidate?()
      ==> ops[i].mine.token != ops[j].mine.token
  }

  ghost predicate Inv(w: World) {
    && Core(w.bucket)
    && (forall i :: i in w.ops ==> OpOk(w.bucket, w.ops[i]))
    && Distinct(w.ops)
  }

  /** How the bucket may change in one step. */
  ghost predicate Evolves(b: Bucket, b': Bucket) {
    && b.clock <= b'.clock
    && b.lastRev <= b'.lastRev
    && (forall t :: t in b.hashes ==> t in b'.hashes && b'.hashes[t] == b.hashes[t])
    && b.handed <= b'.handed
    && b.outputs <= b'.outputs && b'.first == b.first
    && (b'.claim == b.claim || (!b'.claim.Absent? && b'.claim.rev > b.lastRev))
    && b.puts <= b'.puts
    && (b'.puts == b.puts ==> b'.entry == b.entry)
  }

  lemma OpStable(b: Bucket, b': Bucket, op: Op)
    requires OpOk(b, op) && Evolves(b, b')
    requires op.Candidate?() ==> op.mine.token !in b'.handed
    ensures OpOk(b', op)
  {
  }

  /** If `op'` is a Claim call with a token, the token is new or was this call's already. */
  ghost predicate Follows(b: Bucket, op: Op, op': Op) {
    op'.Candidate?() ==>
      op'.mine.token !in b.hashes || (op.Candidate?() && op.mine.token == op'.mine.token)
  }

  /** At most the token of the moving call is handed out. */
  ghost predicate HandsOwn(b: Bucket, b': Bucket, op: Op) {
    forall t :: t in b'.handed && t !in b.handed ==> op.Candidate?() && t == op.mine.token
  }

  /** What one call's step guarantees to all the others. */
  ghost predicate Good(b: Bucket, op: Op, next: (Bucket, Op)) {
    && Core(next.0) && OpOk(next.0, next.1)
    && Evolves(b, next.0)
    && Follows(b, op, next.1)
    && HandsOwn(b, next.0, op)
  }

  lemma LandClaimCore(b: Bucket, c: Claim, rev: nat)
    requires Core(b) && rev > b.lastRev
    requires Sound(c) && c.token in b.hashes && b.hashes[c.token] == c.hash && c.token !in b.givenUp
    requires b.claim.Present? ==> b.claim.value.exp <= b.clock || b.claim.value.token == c.token
    ensures Core(LandClaim(b, c, rev)) && Core(Tell(LandClaim(b, c, rev), c))
    ensures Core(Hand(LandClaim(b, c, rev), c))
  {
    var b' := LandClaim(b, c, rev);
    forall t | t in b'.granted && b'.granted[t] > b'.clock && t !in b'.givenUp ensures InBucket(b', t) {
      assert t != c.token ==> InBucket(b, t);
    }
  }

  lemma ClaimAckedGood(b: Bucket, op: Op, rev: nat)
    requires Core(b) && OpOk(b, op) && op.ClaimWrite?() && Possible(b, op, Acked, rev, "")
    ensures Good(b, op, ClaimStep(b, op, Acked, rev, ""))
  {
    LandClaimCore(b, op.mine, rev);
  }

  lemma ClaimLostGood(b: Bucket, op: Op, rev: nat)
    requires Core(b) && OpOk(b, op) && op.ClaimWrite?() && Possible(b, op, Lost, rev, "")
    ensures Good(b, op, ClaimStep(b, op, Lost, rev, ""))
  {
    LandClaimCore(b, op.mine, rev);
  }

  lemma ClaimRefusedGood(b: Bucket, op: Op, reply: Reply, rev: nat)
    requires Core(b) && OpOk(b, op) && op.ClaimWrite?() && reply.Refused?
    ensures Good(b, op, ClaimStep(b, op, reply, rev, ""))
  {
  }

  lemma ClaimReadGood(b: Bucket, op: Op, reply: Reply)
    requires Core(b) && OpOk(b, op) && (op.Lookup? || op.Looked? || op.Inspecting?)
    ensures Good(b, op, ClaimStep(b, op, reply, 0, ""))
  {
  }

  lemma DrawGood(b: Bucket, op: Op, token: Token)
    requires Core(b) && OpOk(b, op) && op.Drawing? && token != "" && token !in b.hashes
    ensures Good(b, op, ClaimStep(b, op, Acked, 0, token))
  {
  }

  lemma RenewGood(b: Bucket, op: Op, reply: Reply, rev: nat)
    requires Core(b) && OpOk(b, op) && Possible(b, op, reply, rev, "")
    requires op.RenewGet? || op.RenewRead? || op.RenewWrite?
    ensures Good(b, op, RenewStep(b, op, reply, rev))
  {
    if op.RenewWrite? && !reply.Refused? {
      LandClaimCore(b, op.next, rev);
    }
  }

  lemma CompleteReadGood(b: Bucket, op: Op, reply: Reply, rev: nat)
    requires Core(b) && OpOk(b, op) && Possible(b, op, reply, rev, "")
    requires op.CompleteStart? || op.CompleteGet? || op.CompleteRead?
    ensures Good(b, op, CompleteStep(b, op, reply, rev))
  {
  }

  lemma ExtendGood(b: Bucket, op: Op, reply: Reply, rev: nat)
    requires Core(b) && OpOk(b, op) && op.CompleteExtend? && Possible(b, op, reply, rev, "")
    ensures Good(b, op, CompleteStep(b, op, reply, rev))
  {
    if !reply.Refused? {
      LandClaimCore(b, op.next, rev);
    }
  }

  lemma PutGood(b: Bucket, op: Op, reply: Reply, rev: nat)
    requires Core(b) && OpOk(b, op) && op.CompletePut? && Possible(b, op, reply, rev, "")
    ensures Good(b, op, CompleteStep(b, op, reply, rev))
  {
  }

  lemma LandDeleteCore(b: Bucket, t: Token, rev: nat)
    requires Core(b) && rev > b.lastRev && InBucket(b, t) && t in b.handed
    ensures Core(LandDelete(b, t, rev))
  {
  }

  lemma CompleteDeleteGood(b: Bucket, op: Op, reply: Reply, rev: nat)
    requires Core(b) && OpOk(b, op) && op.CompleteDelete? && Possible(b, op, reply, rev, "")
    ensures Good(b, op, CompleteStep(b, op, reply, rev))
  {
    if !reply.Refused? {
      LandDeleteCore(b, op.token, rev);
    }
  }

  lemma ReleaseGood(b: Bucket, op: Op, reply: Reply, rev: nat)
    requires Core(b) && OpOk(b, op) && Possible(b, op, reply, rev, "")
    requires op.ReleaseGet? || op.ReleaseDelete?
    ensures Good(b, op, ReleaseStep(b, op, reply, rev))
  {
    if op.ReleaseDelete? && !reply.Refused? {
      LandDeleteCore(b, op.token, rev);
    }
  }

  lemma OpStepGood(b: Bucket, op: Op, reply: Reply, rev: nat, token: Token)
    requires Core(b) && OpOk(b, op) && Possible(b, op, reply, rev, token)
    ensures Good(b, op, OpStep(b, op, reply, rev, token))
  {
    if op.ClaimWrite?() {
      match reply {
        case Acked => ClaimAckedGood(b, op, rev);
        case Lost => ClaimLostGood(b, op, rev);
        case Refused(_) => ClaimRefusedGood(b, op, reply, rev);
      }
    } else if op.Lookup? || op.Looked? || op.Inspecting? {
      ClaimReadGood(b, op, reply);
    } else if op.Drawing? {
      DrawGood(b, op, token);
    } else if op.RenewGet? || op.RenewRead? || op.RenewWrite? {
      RenewGood(b, op, reply, rev);
    } else if op.ReleaseGet? || op.ReleaseDelete? {
      ReleaseGood(b, op, reply, rev);
    } else if op.CompleteStart? || op.CompleteGet? || op.CompleteRead? {
      CompleteReadGood(b, op, reply, rev);
    } else if op.CompleteDelete? {
      CompleteDeleteGood(b, op, reply, rev);
    } else if op.CompleteExtend? {
      ExtendGood(b, op, reply, rev);
    } else {
      PutGood(b, op, reply, rev);
    }
  }

  /** A good step of one call leaves every other call in order. */
  lemma OthersKept(w: World, id: nat, op: Op, b': Bucket, op': Op)
    requires Inv(w) && Good(w.bucket, op, (b', op'))
    requires id in w.ops ==> w.ops[id] == op
    requires id !in w.ops ==> !op.Candidate?() && !op'.Candidate?()
    ensures Inv(World(b', w.ops[id := op']))
  {
    var ops' := w.ops[id := op'];
    forall i | i in ops' ensures OpOk(b', ops'[i]) {
      if i != id {
        OpStable(w.bucket, b', w.ops[i]);
      }
    }
    forall i | i in w.ops && i != id && w.ops[i].Candidate?() && op'.Candidate?()
      ensures w.ops[i].mine.token != op'.mine.token
    {
      assert OpOk(w.bucket, w.ops[i]);
    }
  }

  lemma TickInv(w: World, now: int)
    requires Inv(w) && w.bucket.clock <= now <= MAX_NANO
    ensures Inv(w.(bucket := w.bucket.(clock := now)))
  {
    forall i | i in w.ops ensures OpOk(w.bucket.(clock := now), w.ops[i]) {
      OpStable(w.bucket, w.bucket.(clock := now), w.ops[i]);
    }
  }

  lemma StepInv(w: World, a: Action)
    requires Inv(w) && Enabled(w, a)
    ensures Inv(Step(w, a))
  {
    match a
    case Tick(now) => TickInv(w, now);
    case Spawn(id, op) => OthersKept(w, id, op, Step(w, a).bucket, op);
    case Abort(id) => OthersKept(w, id, w.ops[id], w.bucket, Done(Failed));
    case Advance(id, reply, rev, token) =>
      var op := w.ops[id];
      OpStepGood(w.bucket, op, reply, rev, token);
      var (b', op') := OpStep(w.bucket, op, reply, rev, token);
      OthersKept(w, id, op, b', op');
  }

  /** Every state of every schedule satisfies the invariant. */
  lemma {:induction false} RunInv(w: World, run: seq<Action>, h: (World, Action) -> bool)
    requires Inv(w) && Legal(w, run, h)
    ensures Inv(Run(w, run, h))
    decreases |run|
  {
    if run != [] {
      StepInv(w, run[0]);
      RunInv(Step(w, run[0]), run[1..], h);
    }
  }

  lemma InitInv(w: World)
    requires Init(w)
    ensures Inv(w)
  {
  }
}
