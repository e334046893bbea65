/** What the coordinator's calls answer their callers, and that undisturbed calls do what they are
    for: a completed request is replayed, a claim in the way blocks, a renewal extends, a release
    frees. */
module LedgerAnswers {
  import opened Options
  import opened Expiry
  import opened Ledger
  import opened LedgerInvariant
  import opened LedgerTheorems
  import opened LedgerRuns

  // ---------------------------------------------------------------------------------------
  // Claim

  /** The answer that recorded entry `e` is to a request with hash `hash`. */
  predicate AnswersWith(e: Entry, hash: Hash, o: Outcome) {
    && (o.Completed? <==> e.requestHash == "" || e.requestHash == hash)
    && (o.Conflict? <==> e.requestHash != "" && e.requestHash != hash)
    && (o.Completed? ==> o.entry == e)
  }

  /** In every state, a Claim that looked an entry up: one that can be found decides the request, by its
      hash; a corrupted one fails it; an expired one or none sends the call on to claim. Nothing is
      written. */
  lemma EntryDecides(w: World, a: Action)
    requires Enabled(w, a) && a.Advance? && w.ops[a.id].Looked?
    ensures Step(w, a).bucket == w.bucket
    ensures
      var op, op' := w.ops[a.id], Step(w, a).ops[a.id];
      if op.found.Present? && DecodeEntry(op.found.value, w.bucket.clock).Found? then
        op'.Done? && AnswersWith(DecodeEntry(op.found.value, w.bucket.clock).entry, op.hash, op'.outcome)
      else if op.found.Present? && DecodeEntry(op.found.value, w.bucket.clock).Corrupted? then op' == Done(Failed)
      else op' == Drawing(op.hash, op.ttl, op.seen)
  {
  }

  /** In every reachable state, a Claim that inspects the claim in its way: another request's claim is a
      conflict, expired or not; its own request's is in progress until it expires, and may be replaced
      then; if it is gone after a create that found one, creation is tried again. */
  lemma ClaimDecides(w0: World, run: seq<Action>, a: Action)
    requires Init(w0) && Legal(w0, run, Anything) && Enabled(Run(w0, run, Anything), a)
    requires a.Advance? && Run(w0, run, Anything).ops[a.id].Inspecting? && a.reply.Acked?
    ensures
      var w := Run(w0, run, Anything);
      var op, op', slot := w.ops[a.id], Step(w, a).ops[a.id], w.bucket.claim;
      && Step(w, a).bucket == w.bucket
      && if slot.Present? then
           && (op' == Done(Conflict) <==> slot.value.hash != "" && slot.value.hash != op.mine.hash)
           && (op' == Done(InProgress) <==>
                 (slot.value.hash == "" || slot.value.hash == op.mine.hash) && op.now < slot.value.exp)
           && (!op'.Done? ==> op' == Replacing(op.mine, op.now, op.seen, slot.rev))
           && (op'.Done? ==> op'.outcome.Conflict? || op'.outcome.InProgress?)
         else op' == if op.err.KeyExists? then Recreating(op.mine, op.now, op.seen) else Done(Failed)
  {
    InitInv(w0);
    RunInv(w0, run, Anything);
  }

  /** A write that lost a race answers that the request is in progress, except that a replacement whose
      claim has gone tries to create again; whatever else is refused fails the call. */
  lemma RaceAnswers(w: World, a: Action)
    requires Enabled(w, a) && a.Advance? && (w.ops[a.id].Recreating? || w.ops[a.id].Replacing?) && a.reply.Refused?
    ensures Step(w, a).bucket == w.bucket
    ensures
      var op, op' := w.ops[a.id], Step(w, a).ops[a.id];
      && (op.Recreating? ==> op' == Done(if a.reply.err.KeyExists? then InProgress else Failed))
      && (op.Replacing? && a.reply.err.RevisionMismatch? ==> op' == Done(InProgress))
      && (op.Replacing? && a.reply.err.KeyMissing? ==> op' == Recreating(op.mine, op.now, op.seen))
      && (op.Replacing? && (a.reply.err.KeyExists? || a.reply.err.OtherError?) ==> op' == Done(Failed))
  {
  }

  /** A Claim whose create is not acknowledged, for whatever reason, looks at what is in its way before it
      answers. */
  lemma CreateInspects(w: World, a: Action)
    requires Enabled(w, a) && a.Advance? && w.ops[a.id].Creating? && !a.reply.Acked?
    ensures
      var op, op' := w.ops[a.id], Step(w, a).ops[a.id];
      op'.Inspecting? && op'.mine == op.mine && op'.now == op.now && op'.seen == op.seen
      && op'.err == if a.reply.Refused? then a.reply.err else OtherError
  {
  }

  /** An undisturbed Claim is answered by an entry that can be found. */
  lemma LookupFinds(w: World, id: nat, hash: Hash, ttl: int, e: Entry, hyp: (World, Action) -> bool)
      returns (run: seq<Action>, o: Outcome)
    requires id !in w.ops && w.bucket.entry.Present? && DecodeEntry(w.bucket.entry.value, w.bucket.clock) == Found(e)
    requires Int64(ttl) && Lenient(hyp) && hyp(w, Spawn(id, Lookup(hash, ttl)))
    ensures Legal(w, run, hyp) && Run(w, run, hyp) == World(w.bucket, w.ops[id := Done(o)]) && AnswersWith(e, hash, o)
  {
    var b := w.bucket;
    o := if e.requestHash == "" || e.requestHash == hash then Completed(e) else Conflict;
    var go := Advance(id, Acked, 0, "");
    var w1 := World(b, w.ops[id := Lookup(hash, ttl)]);
    var w2 := World(b, w.ops[id := Looked(hash, EffectiveTTL(b, ttl), b.puts, b.entry, b.publisher)]);
    var w3 := World(b, w.ops[id := Done(o)]);
    assert w1.ops[id := w2.ops[id]] == w2.ops && w2.ops[id := w3.ops[id]] == w3.ops;
    EntryDecides(w2, go);
    Cons(w2, go, w3, [], hyp);
    run := [go] + [];
    Cons(w1, go, w2, run, hyp);
    run := [go] + run;
    Cons(w, Spawn(id, Lookup(hash, ttl)), w1, run, hyp);
    run := [Spawn(id, Lookup(hash, ttl))] + run;
  }

  /** One worker has claimed and published, and time has passed to `now`. */
  lemma PublishedThen(w: World, id: nat, c: Claim, ttl: int, e: Entry, life: int, rev: nat, now: int)
      returns (run: seq<Action>, w': World)
    requires id !in w.ops && id + 1 !in w.ops && id + 2 !in w.ops
    requires MayClaim(w.bucket, c, ttl) && !w.bucket.claim.Present? && rev > w.bucket.lastRev
    requires e.requestHash == c.hash && c.token !in w.bucket.givenUp && w.bucket.clock <= now <= MAX_NANO
    requires 0 < w.bucket.lease0 && w.bucket.clock + w.bucket.lease0 <= MAX_NANO && Fits(w.bucket.clock, life)
    ensures Legal(w, run, Anything) && Run(w, run, Anything) == w' && id + 2 !in w'.ops
    ensures
      var b := w'.bucket;
      && b.clock == now && b.claim.Deleted? && b.lastRev == rev + 3 && b.hashes == w.bucket.hashes[c.token := c.hash]
      && b.entry == Present(rev + 2, Stored(w.bucket.clock, e, life))
  {
    var first, w1 := WorkerPublishes(w, id, c, ttl, e, life, rev, Anything);
    w' := w1.(bucket := w1.bucket.(clock := now));
    Cons(w1, Tick(now), w', [], Anything);
    Concat(w, first, [Tick(now)] + [], Anything);
    run := first + ([Tick(now)] + []);
  }

  /** What the ledger is for: after one worker has claimed and published, a later Claim of the same
      request is answered with its entry and one of another request with a conflict, as long as the entry
      lives, and for ever if its TTL is not positive. */
  lemma CompletedIsReplayed(w: World, id: nat, c: Claim, ttl: int, e: Entry, life: int, rev: nat, now: int, hash: Hash)
      returns (run: seq<Action>, o: Outcome)
    requires id !in w.ops && id + 1 !in w.ops && id + 2 !in w.ops
    requires MayClaim(w.bucket, c, ttl) && !w.bucket.claim.Present? && rev > w.bucket.lastRev
    requires e.requestHash == c.hash && c.token !in w.bucket.givenUp && w.bucket.clock <= now <= MAX_NANO
    requires 0 < w.bucket.lease0 && w.bucket.clock + w.bucket.lease0 <= MAX_NANO && Fits(w.bucket.clock, life)
    requires life <= 0 || now < w.bucket.clock + life
    ensures Legal(w, run, Anything) && id + 2 in Run(w, run, Anything).ops && Run(w, run, Anything).ops[id + 2] == Done(o)
    ensures o == if c.hash == "" || c.hash == hash then Completed(e) else Conflict
  {
    var w1, more;
    run, w1 := PublishedThen(w, id, c, ttl, e, life, rev, now);
    more, o := LookupFinds(w1, id + 2, hash, 0, e, Anything);
    Concat(w, run, more, Anything);
    run := run + more;
  }

  /** And once the entry's life has ended, a later Claim of any request acquires. */
  lemma ExpiredIsReclaimed(w: World, id: nat, c: Claim, ttl: int, e: Entry, life: int, rev: nat, c2: Claim, ttl2: int, now: int)
      returns (run: seq<Action>)
    requires id !in w.ops && id + 1 !in w.ops && id + 2 !in w.ops
    requires MayClaim(w.bucket, c, ttl) && !w.bucket.claim.Present? && rev > w.bucket.lastRev
    requires e.requestHash == c.hash && c.token !in w.bucket.givenUp
    requires 0 < w.bucket.lease0 && w.bucket.clock + w.bucket.lease0 <= MAX_NANO && Fits(w.bucket.clock, life)
    requires 0 < life && w.bucket.clock + life <= now && 0 < ttl2 && c2.exp == now + ttl2 <= MAX_NANO
    requires c2.token != "" && c2.token != c.token && c2.token !in w.bucket.hashes
    ensures Legal(w, run, Anything)
    ensures id + 2 in Run(w, run, Anything).ops && Run(w, run, Anything).ops[id + 2] == Done(Acquired(c2.token))
  {
    var w1;
    run, w1 := PublishedThen(w, id, c, ttl, e, life, rev, now);
    var more := ClaimAlone(w1, id + 2, c2, ttl2, rev + 4, Anything);
    Concat(w, run, more, Anything);
    run := run + more;
  }

  /** An undisturbed Claim that finds a claim in its way: in progress while that claim is unexpired and
      of the same request, a conflict if it is of another one. The claim stays. */
  lemma BlockedByClaim(w: World, id: nat, c: Claim, ttl: int, hyp: (World, Action) -> bool) returns (run: seq<Action>)
    requires id !in w.ops && MayClaim(w.bucket, c, ttl) && w.bucket.claim.Present? && Sound(w.bucket.claim.value)
    requires
      var there := w.bucket.claim.value;
      (there.hash != "" && there.hash != c.hash) || w.bucket.clock < there.exp
    requires Lenient(hyp) && hyp(w, Spawn(id, Lookup(c.hash, ttl)))
    ensures Legal(w, run, hyp)
    ensures
      var there, w' := w.bucket.claim.value, Run(w, run, hyp);
      && id in w'.ops && w'.bucket.claim == w.bucket.claim && w'.bucket.entry == w.bucket.entry
      && w'.ops[id] == Done(if there.hash == "" || there.hash == c.hash then InProgress else Conflict)
  {
    var b, there := w.bucket, w.bucket.claim.value;
    var first := LookupAndDraw(w, id, c, ttl, hyp);
    var w1 := Run(w, first, hyp);
    var w2 := World(w1.bucket, w.ops[id := Inspecting(c, b.clock, b.puts, KeyExists)]);
    var o := if there.hash == "" || there.hash == c.hash then InProgress else Conflict;
    var w3 := World(w1.bucket, w.ops[id := Done(o)]);
    assert w1.ops[id := w2.ops[id]] == w2.ops && w2.ops[id := w3.ops[id]] == w3.ops;
    Cons(w2, Advance(id, Acked, 0, ""), w3, [], hyp);
    run := [Advance(id, Acked, 0, "")] + [];
    Cons(w1, Advance(id, Refused(KeyExists), 0, ""), w2, run, hyp);
    run := [Advance(id, Refused(KeyExists), 0, "")] + run;
    Concat(w, first, run, hyp);
    run := first + run;
  }

  /** A Claim whose create found a claim that has gone by the time it looks acquires after all. */
  lemma RetryAcquires(w: World, id: nat, rev: nat, hyp: (World, Action) -> bool) returns (run: seq<Action>)
    requires id in w.ops && !w.bucket.claim.Present? && Vacant(w.bucket) && rev > w.bucket.lastRev && Lenient(hyp)
    requires w.ops[id].Inspecting? && w.ops[id].err.KeyExists?
    ensures Legal(w, run, hyp)
    ensures
      var c, w' := w.ops[id].mine, Run(w, run, hyp);
      && w' == World(Hand(LandClaim(w.bucket, c, rev), c), w.ops[id := Done(Acquired(c.token))])
  {
    var b, op := w.bucket, w.ops[id];
    var w1 := World(b, w.ops[id := Recreating(op.mine, op.now, op.seen)]);
    var w2 := World(Hand(LandClaim(b, op.mine, rev), op.mine), w.ops[id := Done(Acquired(op.mine.token))]);
    assert w1.ops[id := w2.ops[id]] == w2.ops;
    Cons(w1, Advance(id, Acked, rev, ""), w2, [], hyp);
    run := [Advance(id, Acked, rev, "")] + [];
    Cons(w, Advance(id, Acked, 0, ""), w1, run, hyp);
    run := [Advance(id, Acked, 0, "")] + run;
  }

  // ---------------------------------------------------------------------------------------
  // RenewClaim, Complete and Release

  /** The lease that a call which has read the claim asks for. */
  function Asked(b: Bucket, op: Op): int
    requires op.RenewRead? || op.CompleteRead?
  {
    if op.RenewRead? then op.ttl else b.lease0
  }

  /** In every reachable state, RenewClaim and Complete go on to extend a claim if and only if it is their
      own, has not expired and the new expiry fits 64 bits; they keep its token and hash and end it a full
      lease from now. Otherwise they fail. */
  lemma ExtensionDecides(w0: World, run: seq<Action>, a: Action)
    requires Init(w0) && Legal(w0, run, Anything) && Enabled(Run(w0, run, Anything), a) && a.Advance?
    requires var op := Run(w0, run, Anything).ops[a.id]; op.RenewRead? || op.CompleteRead?
    ensures
      var w := Run(w0, run, Anything);
      var op, op', b := w.ops[a.id], Step(w, a).ops[a.id], w.bucket;
      && Step(w, a).bucket == b
      && if Sound(op.held) && op.held.token == op.token && b.clock < op.held.exp && b.clock + Asked(b, op) <= MAX_NANO
         then (op'.RenewWrite? || op'.CompleteExtend?) && op'.token == op.token && op'.rev == op.rev
              && op'.next == Claim(op.token, op.held.hash, b.clock + Asked(b, op))
         else op' == Done(Failed)
  {
    InitInv(w0);
    RunInv(w0, run, Anything);
    assert OpOk(Run(w0, run, Anything).bucket, Run(w0, run, Anything).ops[a.id]);
  }

  /** What the bucket looks like when a call with a token reports success. */
  predicate Achieved(b: Bucket, op: Op, reply: Reply, b': Bucket)
    requires Owner(op)
  {
    if op.RenewWrite? then reply.Acked? && b'.claim.Present? && b'.claim.value == op.next
    else if op.CompleteDelete? then reply.Acked? && !b'.claim.Present? && op.token in b'.givenUp
    else if op.ReleaseGet? then b' == b && (reply == Refused(KeyMissing) || !InBucket(b', op.token))
    else op.ReleaseDelete? && (reply == Refused(KeyMissing) || !InBucket(b', op.token))
  }

  /** In every state, a call that reports success has achieved what it is for, as far as the bucket told
      it the truth: a renewal's claim is in the bucket, a completed or released one is not. */
  lemma SuccessMeans(w: World, a: Action)
    requires Enabled(w, a) && a.Advance? && Owner(w.ops[a.id]) && Step(w, a).ops[a.id] == Done(Succeeded)
    ensures Achieved(w.bucket, w.ops[a.id], a.reply, Step(w, a).bucket)
  {
  }

  /** In particular a Release that reports success on the bucket's own answer has freed the claim. */
  lemma ReleaseFrees(w: World, a: Action)
    requires Enabled(w, a) && a.Advance? && a.reply.Acked? && (w.ops[a.id].ReleaseGet? || w.ops[a.id].ReleaseDelete?)
    requires Step(w, a).ops[a.id] == Done(Succeeded)
    ensures !InBucket(Step(w, a).bucket, w.ops[a.id].token)
  {
    SuccessMeans(w, a);
  }

  /** And one that finds nothing of its own to free reports success and changes nothing. */
  lemma NothingToRelease(w: World, a: Action)
    requires Enabled(w, a) && a.Advance? && w.ops[a.id].ReleaseGet?
    requires a.reply == Refused(KeyMissing) || (a.reply.Acked? && !InBucket(w.bucket, w.ops[a.id].token))
    ensures Step(w, a) == World(w.bucket, w.ops[a.id := Done(Succeeded)])
  {
  }

  /** Complete gets to its last step, deleting the claim, only by an acknowledged write of its entry. */
  lemma PublishedBeforeDelete(w: World, a: Action, id: nat)
    requires Enabled(w, a) && id in w.ops && !w.ops[id].CompleteDelete? && Step(w, a).ops[id].CompleteDelete?
    ensures a.Advance? && a.id == id && a.reply.Acked? && w.ops[id].CompletePut?
    ensures
      var b, op := Step(w, a).bucket, w.ops[id];
      b.entry == Present(a.rev, op.raw) && b.publisher == Some(op.token) && Step(w, a).ops[id].token == op.token
  {
  }

  predicate MayRenew(b: Bucket, t: Token, lease: int) {
    && InBucket(b, t) && Sound(b.claim.value) && 0 <= b.clock < b.claim.value.exp
    && 0 < lease && b.clock + lease <= MAX_NANO
  }

  lemma RenewFromRead(w: World, id: nat, t: Token, lease: int, rev: nat, hyp: (World, Action) -> bool)
      returns (run: seq<Action>)
    requires id in w.ops && rev > w.bucket.lastRev && MayRenew(w.bucket, t, lease) && Lenient(hyp)
    requires w.ops[id] == RenewRead(t, lease, w.bucket.claim.rev, w.bucket.claim.value)
    ensures Legal(w, run, hyp)
    ensures
      var next := Claim(t, w.bucket.claim.value.hash, w.bucket.clock + lease);
      Run(w, run, hyp) == World(Tell(LandClaim(w.bucket, next, rev), next), w.ops[id := Done(Succeeded)])
  {
    var b := w.bucket;
    var next := b.claim.value.(exp := b.clock + lease);
    var w1 := World(b, w.ops[id := RenewWrite(t, b.claim.rev, next)]);
    var w2 := World(Tell(LandClaim(b, next, rev), next), w.ops[id := Done(Succeeded)]);
    assert w1.ops[id := w2.ops[id]] == w2.ops;
    Cons(w1, Advance(id, Acked, rev, ""), w2, [], hyp);
    run := [Advance(id, Acked, rev, "")] + [];
    Cons(w, Advance(id, Acked, 0, ""), w1, run, hyp);
    run := [Advance(id, Acked, 0, "")] + run;
  }

  lemma RenewUpToRead(w: World, id: nat, t: Token, ttl: int, hyp: (World, Action) -> bool) returns (run: seq<Action>)
    requires id !in w.ops && w.bucket.claim.Present? && t in w.bucket.handed && Int64(ttl)
    requires Lenient(hyp) && hyp(w, Spawn(id, RenewGet(t, ttl)))
    ensures Legal(w, run, hyp)
    ensures Run(w, run, hyp) == World(w.bucket,
      w.ops[id := RenewRead(t, EffectiveTTL(w.bucket, ttl), w.bucket.claim.rev, w.bucket.claim.value)])
  {
    var b := w.bucket;
    var w1 := World(b, w.ops[id := RenewGet(t, ttl)]);
    var w2 := World(b, w.ops[id := RenewRead(t, EffectiveTTL(b, ttl), b.claim.rev, b.claim.value)]);
    assert w1.ops[id := w2.ops[id]] == w2.ops;
    Cons(w1, Advance(id, Acked, 0, ""), w2, [], hyp);
    run := [Advance(id, Acked, 0, "")] + [];
    Cons(w, Spawn(id, RenewGet(t, ttl)), w1, run, hyp);
    run := [Spawn(id, RenewGet(t, ttl))] + run;
  }

  /** An undisturbed renewal by the lease holder succeeds: the claim ends a full lease from now and its
      owner knows. */
  lemma RenewAlone(w: World, id: nat, t: Token, ttl: int, rev: nat, hyp: (World, Action) -> bool) returns (run: seq<Action>)
    requires id !in w.ops && rev > w.bucket.lastRev && t in w.bucket.handed && Int64(ttl)
    requires MayRenew(w.bucket, t, EffectiveTTL(w.bucket, ttl))
    requires Lenient(hyp) && hyp(w, Spawn(id, RenewGet(t, ttl)))
    ensures Legal(w, run, hyp)
    ensures
      var next := Claim(t, w.bucket.claim.value.hash, w.bucket.clock + EffectiveTTL(w.bucket, ttl));
      Run(w, run, hyp) == World(Tell(LandClaim(w.bucket, next, rev), next), w.ops[id := Done(Succeeded)])
  {
    run := RenewUpToRead(w, id, t, ttl, hyp);
    var w1 := Run(w, run, hyp);
    var more := RenewFromRead(w1, id, t, EffectiveTTL(w.bucket, ttl), rev, hyp);
    Concat(w, run, more, hyp);
    run := run + more;
    assert w1.ops[id := Done(Succeeded)] == w.ops[id := Done(Succeeded)];
  }

  /** An undisturbed Release of the claim in the bucket deletes it. */
  lemma ReleaseAlone(w: World, id: nat, t: Token, rev: nat, hyp: (World, Action) -> bool) returns (run: seq<Action>)
    requires id !in w.ops && rev > w.bucket.lastRev && t in w.bucket.handed && InBucket(w.bucket, t)
    requires Lenient(hyp) && hyp(w, Spawn(id, ReleaseGet(t)))
    ensures Legal(w, run, hyp)
    ensures Run(w, run, hyp) == World(LandDelete(w.bucket, t, rev), w.ops[id := Done(Succeeded)])
  {
    var b := w.bucket;
    var w1 := World(b, w.ops[id := ReleaseGet(t)]);
    var w2 := World(b, w.ops[id := ReleaseDelete(t, b.claim.rev)]);
    var w3 := World(LandDelete(b, t, rev), w.ops[id := Done(Succeeded)]);
    assert w1.ops[id := w2.ops[id]] == w2.ops && w2.ops[id := w3.ops[id]] == w3.ops;
    Cons(w2, Advance(id, Acked, rev, ""), w3, [], hyp);
    run := [Advance(id, Acked, rev, "")] + [];
    Cons(w1, Advance(id, Acked, 0, ""), w2, run, hyp);
    run := [Advance(id, Acked, 0, "")] + run;
    Cons(w, Spawn(id, ReleaseGet(t)), w1, run, hyp);
    run := [Spawn(id, ReleaseGet(t))] + run;
  }

  /** After it the claim is gone and given up, and the next undisturbed Claim of any request acquires at
      once, without waiting for the lease to end. */
  lemma ReleasedIsFree(w: World, id: nat, t: Token, rev: nat, c: Claim, ttl: int) returns (run: seq<Action>)
    requires id !in w.ops && id + 1 !in w.ops && rev > w.bucket.lastRev && t in w.bucket.handed && InBucket(w.bucket, t)
    requires MayClaim(w.bucket, c, ttl)
    ensures Legal(w, run, Anything)
    ensures
      var w' := Run(w, run, Anything);
      && id in w'.ops && w'.ops[id] == Done(Succeeded) && t in w'.bucket.givenUp
      && id + 1 in w'.ops && w'.ops[id + 1] == Done(Acquired(c.token)) && w'.bucket.claim == Present(rev + 1, c)
  {
    run := ReleaseAlone(w, id, t, rev, Anything);
    var w1 := Run(w, run, Anything);
    var more := ClaimAlone(w1, id + 1, c, ttl, rev + 1, Anything);
    Concat(w, run, more, Anything);
    run := run + more;
  }
}
