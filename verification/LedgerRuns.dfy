/** Undisturbed calls succeed, and the runs that show why the hypotheses of the safety theorems
    are needed. */
module LedgerRuns {
  import opened Identifiers
  import opened Options
  import opened Expiry
  import opened Ledger
  import opened LedgerInvariant
  import opened LedgerTheorems

  lemma {:induction false} Concat(w: World, r1: seq<Action>, r2: seq<Action>, h: (World, Action) -> bool)
    requires Legal(w, r1, h) && Legal(Run(w, r1, h), r2, h)
    ensures Legal(w, r1 + r2, h) && Run(w, r1 + r2, h) == Run(Run(w, r1, h), r2, h)
    decreases |r1|
  {
    if r1 == [] {
      assert r1 + r2 == r2;
    } else {
      Concat(Step(w, r1[0]), r1[1..], r2, h);
      assert (r1 + r2)[1..] == r1[1..] + r2;
    }
  }

  /** Prepend one action whose effect is known. */
  lemma Cons(w: World, a: Action, w1: World, rest: seq<Action>, h: (World, Action) -> bool)
    requires Enabled(w, a) && h(w, a) && Step(w, a) == w1 && Legal(w1, rest, h)
    ensures Legal(w, [a] + rest, h) && Run(w, [a] + rest, h) == Run(w1, rest, h)
  {
    assert ([a] + rest)[1..] == rest;
  }

  // ---------------------------------------------------------------------------------------
  // Undisturbed calls

  /** A hypothesis that lets calls go on as long as they are protected. */
  ghost predicate Lenient(hyp: (World, Action) -> bool) {
    forall w, a :: Protected(w, a) && !a.Spawn? ==> hyp(w, a)
  }

  function Claimed(b: Bucket, c: Claim, rev: nat): Bucket {
    Hand(LandClaim(b.(hashes := b.hashes[c.token := c.hash]), c, rev), c)
  }

  /** A claim some undisturbed call is about to write. */
  predicate MayClaim(b: Bucket, c: Claim, ttl: int) {
    && Vacant(b) && c.token != "" && c.token !in b.hashes
    && 0 <= b.clock && 0 < ttl && c.exp == b.clock + ttl <= MAX_NANO
  }

  lemma LookAlone(w: World, id: nat, hash: Hash, ttl: int, hyp: (World, Action) -> bool)
      returns (run: seq<Action>)
    requires id !in w.ops && Vacant(w.bucket) && 0 < ttl && Int64(ttl)
    requires Lenient(hyp) && hyp(w, Spawn(id, Lookup(hash, ttl)))
    ensures Legal(w, run, hyp)
    ensures Run(w, run, hyp) == World(w.bucket, w.ops[id := Drawing(hash, ttl, w.bucket.puts)])
  {
    var b := w.bucket;
    var w1 := World(b, w.ops[id := Lookup(hash, ttl)]);
    var w2 := World(b, w.ops[id := Looked(hash, ttl, b.puts, b.entry, b.publisher)]);
    var w3 := World(b, w.ops[id := Drawing(hash, ttl, b.puts)]);
    assert w1.ops[id := w2.ops[id]] == w2.ops && w2.ops[id := w3.ops[id]] == w3.ops;
    Cons(w2, Advance(id, Acked, 0, ""), w3, [], hyp);
    run := [Advance(id, Acked, 0, "")] + [];
    Cons(w1, Advance(id, Acked, 0, ""), w2, run, hyp);
    run := [Advance(id, Acked, 0, "")] + run;
    Cons(w, Spawn(id, Lookup(hash, ttl)), w1, run, hyp);
    run := [Spawn(id, Lookup(hash, ttl))] + run;
  }

  lemma LookupAndDraw(w: World, id: nat, c: Claim, ttl: int, hyp: (World, Action) -> bool)
      returns (run: seq<Action>)
    requires id !in w.ops && MayClaim(w.bucket, c, ttl)
    requires Lenient(hyp) && hyp(w, Spawn(id, Lookup(c.hash, ttl)))
    ensures Legal(w, run, hyp)
    ensures Run(w, run, hyp) == World(w.bucket.(hashes := w.bucket.hashes[c.token := c.hash]),
                                      w.ops[id := Creating(c, w.bucket.clock, w.bucket.puts)])
  {
    var b := w.bucket;
    run := LookAlone(w, id, c.hash, ttl, hyp);
    var w1 := World(b, w.ops[id := Drawing(c.hash, ttl, b.puts)]);
    var w2 := World(b.(hashes := b.hashes[c.token := c.hash]), w.ops[id := Creating(c, b.clock, b.puts)]);
    assert w1.ops[id := w2.ops[id]] == w2.ops;
    Cons(w1, Advance(id, Acked, 0, c.token), w2, [], hyp);
    Concat(w, run, [Advance(id, Acked, 0, c.token)] + [], hyp);
    run := run + ([Advance(id, Acked, 0, c.token)] + []);
  }

  /** With nothing to be found and no claim in the way, an undisturbed Claim acquires the lease. */
  lemma ClaimAlone(w: World, id: nat, c: Claim, ttl: int, rev: nat, hyp: (World, Action) -> bool)
      returns (run: seq<Action>)
    requires id !in w.ops && MayClaim(w.bucket, c, ttl) && rev > w.bucket.lastRev
    requires !w.bucket.claim.Present?
    requires Lenient(hyp) && hyp(w, Spawn(id, Lookup(c.hash, ttl)))
    ensures Legal(w, run, hyp)
    ensures Run(w, run, hyp) == World(Claimed(w.bucket, c, rev), w.ops[id := Done(Acquired(c.token))])
  {
    var first := LookupAndDraw(w, id, c, ttl, hyp);
    var w3 := Run(w, first, hyp);
    var w4 := World(Claimed(w.bucket, c, rev), w.ops[id := Done(Acquired(c.token))]);
    assert w3.ops[id := w4.ops[id]] == w4.ops;
    Cons(w3, Advance(id, Acked, rev, ""), w4, [], hyp);
    run := [Advance(id, Acked, rev, "")] + [];
    Concat(w, first, run, hyp);
    run := first + run;
  }

  lemma RefusedThenResolved(w: World, id: nat, c: Claim, hyp: (World, Action) -> bool)
      returns (run: seq<Action>)
    requires id in w.ops && w.ops[id] == Creating(c, w.bucket.clock, w.bucket.puts)
    requires w.bucket.claim.Present? && ResolveClaim(w.bucket.claim.value, c.hash, w.bucket.clock).None?
    requires Lenient(hyp)
    ensures Legal(w, run, hyp)
    ensures Run(w, run, hyp)
         == World(w.bucket, w.ops[id := Replacing(c, w.bucket.clock, w.bucket.puts, w.bucket.claim.rev)])
  {
    var b := w.bucket;
    var w1 := World(b, w.ops[id := Inspecting(c, b.clock, b.puts, KeyExists)]);
    var w2 := World(b, w.ops[id := Replacing(c, b.clock, b.puts, b.claim.rev)]);
    assert w1.ops[id := w2.ops[id]] == w2.ops;
    Cons(w1, Advance(id, Acked, 0, ""), w2, [], hyp);
    run := [Advance(id, Acked, 0, "")] + [];
    Cons(w, Advance(id, Refused(KeyExists), 0, ""), w1, run, hyp);
    run := [Advance(id, Refused(KeyExists), 0, "")] + run;
  }

  /** An undisturbed Claim takes over an expired claim of the same request. */
  lemma TakeoverAlone(w: World, id: nat, c: Claim, ttl: int, rev: nat, hyp: (World, Action) -> bool)
      returns (run: seq<Action>)
    requires id !in w.ops && MayClaim(w.bucket, c, ttl) && rev > w.bucket.lastRev
    requires w.bucket.claim.Present? && ResolveClaim(w.bucket.claim.value, c.hash, w.bucket.clock).None?
    requires Lenient(hyp) && hyp(w, Spawn(id, Lookup(c.hash, ttl)))
    ensures Legal(w, run, hyp)
    ensures Run(w, run, hyp) == World(Claimed(w.bucket, c, rev), w.ops[id := Done(Acquired(c.token))])
  {
    var first := LookupAndDraw(w, id, c, ttl, hyp);
    var w3 := Run(w, first, hyp);
    var second := RefusedThenResolved(w3, id, c, hyp);
    Concat(w, first, second, hyp);
    var w5 := Run(w3, second, hyp);
    var w6 := World(Claimed(w.bucket, c, rev), w.ops[id := Done(Acquired(c.token))]);
    assert w5.ops[id := w6.ops[id]] == w6.ops;
    Cons(w5, Advance(id, Acked, rev, ""), w6, [], hyp);
    run := [Advance(id, Acked, rev, "")] + [];
    Concat(w, first + second, run, hyp);
    run := first + second + run;
  }

  /** The bucket after Complete extended the claim it owns. */
  function ExtendedBy(b: Bucket, e: Entry, rev: nat): Bucket
    requires b.claim.Present?
  {
    var next := b.claim.value.(exp := b.clock + b.lease0);
    Tell(LandClaim(b.(outputs := b.outputs + {(next.token, e)}), next, rev), next)
  }

  /** The lease holder may call Complete with `e`, to be kept for `life`. */
  predicate MayComplete(b: Bucket, e: Entry, life: int) {
    && b.claim.Present? && Sound(b.claim.value) && 0 <= b.clock < b.claim.value.exp
    && b.claim.value.token in b.handed && b.claim.value.token in b.hashes
    && e.requestHash == b.hashes[b.claim.value.token]
    && 0 < b.lease0 && b.clock + b.lease0 <= MAX_NANO
    && Fits(b.clock, life)
  }

  predicate Fits(now: int, life: int) {
    Int64(life) && (life > 0 ==> now + life <= MAX_NANO)
  }

  /** What Complete stores: the entry with the end of its life, zero for an endless one. */
  function Stored(now: int, e: Entry, life: int): RawEntry {
    Wrapped(Some(e), if life > 0 then now + life else 0)
  }

  lemma CompleteUpToRead(w: World, id: nat, e: Entry, life: int, hyp: (World, Action) -> bool)
      returns (run: seq<Action>)
    requires id !in w.ops && MayComplete(w.bucket, e, life)
    requires Lenient(hyp) && hyp(w, Spawn(id, CompleteStart(w.bucket.claim.value.token, e, life)))
    ensures Legal(w, run, hyp)
    ensures
      var c := w.bucket.claim;
      Run(w, run, hyp) == World(w.bucket.(outputs := w.bucket.outputs + {(c.value.token, e)}),
        w.ops[id := CompleteRead(c.value.token, Stored(w.bucket.clock, e, life), c.rev, c.value)])
  {
    var b := w.bucket;
    var t, raw := b.claim.value.token, Stored(b.clock, e, life);
    var b1 := b.(outputs := b.outputs + {(t, e)});
    var w1 := World(b1, w.ops[id := CompleteStart(t, e, life)]);
    var w2 := World(b1, w.ops[id := CompleteGet(t, raw)]);
    var w3 := World(b1, w.ops[id := CompleteRead(t, raw, b.claim.rev, b.claim.value)]);
    assert w1.ops[id := w2.ops[id]] == w2.ops && w2.ops[id := w3.ops[id]] == w3.ops;
    Cons(w2, Advance(id, Acked, 0, ""), w3, [], hyp);
    run := [Advance(id, Acked, 0, "")] + [];
    Cons(w1, Advance(id, Acked, 0, ""), w2, run, hyp);
    run := [Advance(id, Acked, 0, "")] + run;
    Cons(w, Spawn(id, CompleteStart(t, e, life)), w1, run, hyp);
    run := [Spawn(id, CompleteStart(t, e, life))] + run;
  }

  lemma ExtendAlone(w: World, id: nat, t: Token, raw: RawEntry, rev: nat, hyp: (World, Action) -> bool)
      returns (run: seq<Action>)
    requires id in w.ops && rev > w.bucket.lastRev && w.bucket.claim.Present?
    requires w.ops[id] == CompleteRead(t, raw, w.bucket.claim.rev, w.bucket.claim.value)
    requires Extended(w.bucket.claim.value, t, w.bucket.clock, w.bucket.lease0).Some?
    requires Lenient(hyp)
    ensures Legal(w, run, hyp)
    ensures
      var next := Extended(w.bucket.claim.value, t, w.bucket.clock, w.bucket.lease0).value;
      Run(w, run, hyp)
        == World(Tell(LandClaim(w.bucket, next, rev), next), w.ops[id := CompletePut(t, raw, rev, next.exp)])
  {
    var b := w.bucket;
    var next := Extended(b.claim.value, t, b.clock, b.lease0).value;
    var w1 := World(b, w.ops[id := CompleteExtend(t, raw, b.claim.rev, next)]);
    var w2 := World(Tell(LandClaim(b, next, rev), next), w.ops[id := CompletePut(t, raw, rev, next.exp)]);
    assert w1.ops[id := w2.ops[id]] == w2.ops;
    Cons(w1, Advance(id, Acked, rev, ""), w2, [], hyp);
    run := [Advance(id, Acked, rev, "")] + [];
    Cons(w, Advance(id, Acked, 0, ""), w1, run, hyp);
    run := [Advance(id, Acked, 0, "")] + run;
  }

  /** The same extension lands, but Complete is told that it failed. */
  lemma LostExtension(w: World, id: nat, t: Token, raw: RawEntry, rev: nat, hyp: (World, Action) -> bool)
      returns (run: seq<Action>)
    requires id in w.ops && rev > w.bucket.lastRev && w.bucket.claim.Present?
    requires w.ops[id] == CompleteRead(t, raw, w.bucket.claim.rev, w.bucket.claim.value)
    requires Extended(w.bucket.claim.value, t, w.bucket.clock, w.bucket.lease0).Some?
    requires Lenient(hyp)
    ensures Legal(w, run, hyp)
    ensures
      var next := Extended(w.bucket.claim.value, t, w.bucket.clock, w.bucket.lease0).value;
      Run(w, run, hyp) == World(LandClaim(w.bucket, next, rev), w.ops[id := Done(Failed)])
  {
    var b := w.bucket;
    var next := Extended(b.claim.value, t, b.clock, b.lease0).value;
    var w1 := World(b, w.ops[id := CompleteExtend(t, raw, b.claim.rev, next)]);
    var w2 := World(LandClaim(b, next, rev), w.ops[id := Done(Failed)]);
    assert w1.ops[id := w2.ops[id]] == w2.ops;
    Cons(w1, Advance(id, Lost, rev, ""), w2, [], hyp);
    run := [Advance(id, Lost, rev, "")] + [];
    Cons(w, Advance(id, Acked, 0, ""), w1, run, hyp);
    run := [Advance(id, Acked, 0, "")] + run;
  }

  /** An undisturbed Complete of the lease holder gets as far as its entry write. */
  lemma CompleteUpToPut(w: World, id: nat, e: Entry, life: int, rev: nat, hyp: (World, Action) -> bool)
      returns (run: seq<Action>)
    requires id !in w.ops && rev > w.bucket.lastRev && MayComplete(w.bucket, e, life)
    requires Lenient(hyp) && hyp(w, Spawn(id, CompleteStart(w.bucket.claim.value.token, e, life)))
    ensures Legal(w, run, hyp)
    ensures
      var b := w.bucket;
      Run(w, run, hyp) == World(ExtendedBy(b, e, rev),
        w.ops[id := CompletePut(b.claim.value.token, Stored(b.clock, e, life), rev, b.clock + b.lease0)])
  {
    var t := w.bucket.claim.value.token;
    var first := CompleteUpToRead(w, id, e, life, hyp);
    var second := ExtendAlone(Run(w, first, hyp), id, t, Stored(w.bucket.clock, e, life), rev, hyp);
    Concat(w, first, second, hyp);
    run := first + second;
  }

  /** From there it publishes the entry and removes exactly its own claim. */
  lemma CompleteFromPut(w: World, id: nat, r2: nat, r3: nat, hyp: (World, Action) -> bool)
      returns (run: seq<Action>)
    requires id in w.ops && w.ops[id].CompletePut? && HoldsLease(w.bucket, w.ops[id].token)
    requires At(w.bucket.claim, w.ops[id].rev) && w.bucket.lastRev < r2 < r3
    requires Lenient(hyp)
    ensures Legal(w, run, hyp)
    ensures
      var op := w.ops[id];
      Run(w, run, hyp) == World(LandDelete(LandEntry(w.bucket, op.token, op.raw, r2), op.token, r3),
                                      w.ops[id := Done(Succeeded)])
  {
    var b, op := w.bucket, w.ops[id];
    var w1 := World(LandEntry(b, op.token, op.raw, r2), w.ops[id := CompleteDelete(op.token, op.rev)]);
    var w2 := World(LandDelete(w1.bucket, op.token, r3), w.ops[id := Done(Succeeded)]);
    assert w1.ops[id := w2.ops[id]] == w2.ops;
    Cons(w1, Advance(id, Acked, r3, ""), w2, [], hyp);
    run := [Advance(id, Acked, r3, "")] + [];
    Cons(w, Advance(id, Acked, r2, ""), w1, run, hyp);
    run := [Advance(id, Acked, r2, "")] + run;
  }

  /** The bucket after an undisturbed Complete: the entry is published and the claim is gone. */
  function CompletedBy(b: Bucket, e: Entry, life: int, rev: nat): Bucket
    requires b.claim.Present?
  {
    var t := b.claim.value.token;
    LandDelete(LandEntry(ExtendedBy(b, e, rev), t, Stored(b.clock, e, life), rev + 1), t, rev + 2)
  }

  lemma CompleteAlone(w: World, id: nat, e: Entry, life: int, rev: nat, hyp: (World, Action) -> bool)
      returns (run: seq<Action>)
    requires id !in w.ops && rev > w.bucket.lastRev && MayComplete(w.bucket, e, life)
    requires w.bucket.claim.value.token !in w.bucket.givenUp
    requires Lenient(hyp) && hyp(w, Spawn(id, CompleteStart(w.bucket.claim.value.token, e, life)))
    ensures Legal(w, run, hyp)
    ensures Run(w, run, hyp) == World(CompletedBy(w.bucket, e, life, rev), w.ops[id := Done(Succeeded)])
  {
    run := CompleteUpToPut(w, id, e, life, rev, hyp);
    var w1 := Run(w, run, hyp);
    var last := CompleteFromPut(w1, id, rev + 1, rev + 2, hyp);
    Concat(w, run, last, hyp);
    run := run + last;
    assert w1.ops[id := Done(Succeeded)] == w.ops[id := Done(Succeeded)];
  }

  /** One undisturbed worker claims with `c` and publishes `e`. */
  lemma WorkerAlone(w: World, id: nat, c: Claim, ttl: int, e: Entry, life: int, rev: nat, hyp: (World, Action) -> bool)
      returns (run: seq<Action>)
    requires id !in w.ops && id + 1 !in w.ops && MayClaim(w.bucket, c, ttl) && rev > w.bucket.lastRev
    requires w.bucket.claim.Present? ==> ResolveClaim(w.bucket.claim.value, c.hash, w.bucket.clock).None?
    requires e.requestHash == c.hash && c.token !in w.bucket.givenUp
    requires 0 < w.bucket.lease0 && w.bucket.clock + w.bucket.lease0 <= MAX_NANO && Fits(w.bucket.clock, life)
    requires Lenient(hyp) && hyp(w, Spawn(id, Lookup(c.hash, ttl)))
    requires forall t, i :: hyp(t, Spawn(i, CompleteStart(c.token, e, life)))
    ensures Legal(w, run, hyp)
    ensures Run(w, run, hyp) == World(
      CompletedBy(Claimed(w.bucket, c, rev), e, life, rev + 1),
      w.ops[id := Done(Acquired(c.token))][id + 1 := Done(Succeeded)])
  {
    if w.bucket.claim.Present? {
      run := TakeoverAlone(w, id, c, ttl, rev, hyp);
    } else {
      run := ClaimAlone(w, id, c, ttl, rev, hyp);
    }
    var w1 := World(Claimed(w.bucket, c, rev), w.ops[id := Done(Acquired(c.token))]);
    var more := CompleteAlone(w1, id + 1, e, life, rev + 1, hyp);
    Concat(w, run, more, hyp);
    run := run + more;
  }

  /** What is left of it: the entry can be found and is the worker's own. */
  lemma WorkerPublishes(w: World, id: nat, c: Claim, ttl: int, e: Entry, life: int, rev: nat, hyp: (World, Action) -> bool)
      returns (run: seq<Action>, w': World)
    requires id !in w.ops && id + 1 !in w.ops && MayClaim(w.bucket, c, ttl) && rev > w.bucket.lastRev
    requires w.bucket.claim.Present? ==> ResolveClaim(w.bucket.claim.value, c.hash, w.bucket.clock).None?
    requires e.requestHash == c.hash && c.token !in w.bucket.givenUp
    requires 0 < w.bucket.lease0 && w.bucket.clock + w.bucket.lease0 <= MAX_NANO && Fits(w.bucket.clock, life)
    requires Lenient(hyp) && hyp(w, Spawn(id, Lookup(c.hash, ttl)))
    requires forall t, i :: hyp(t, Spawn(i, CompleteStart(c.token, e, life)))
    ensures Legal(w, run, hyp) && Run(w, run, hyp) == w'
    ensures w'.ops.Keys == w.ops.Keys + {id, id + 1} && forall i :: i in w.ops ==> w'.ops[i] == w.ops[i]
    ensures
      var b := w'.bucket;
      && b.clock == w.bucket.clock && b.lastRev == rev + 3 && b.claim.Deleted? && b.puts == w.bucket.puts + 1
      && b.entry == Present(rev + 2, Stored(b.clock, e, life)) && b.publisher == Some(c.token)
      && b.hashes == w.bucket.hashes[c.token := c.hash]
  {
    run := WorkerAlone(w, id, c, ttl, e, life, rev, hyp);
    w' := Run(w, run, hyp);
  }

  // ---------------------------------------------------------------------------------------
  // Why the hypotheses are needed

  /** A fresh bucket at time zero. */
  function StartWith(lease0: int): World {
    World(Bucket(0, lease0, 0, Absent, Absent, Absent, map[], {}, map[], map[], {}, 0, None, {}), map[])
  }

  const START: World := StartWith(10)

  const FIRST: Entry := Entry(200, "h", [1])
  const SECOND: Entry := Entry(200, "h", [2])

  /** The next entry write lands over an entry that another token published and that can still
      be found. */
  predicate Overwrites(w: World, a: Action) {
    && Enabled(w, a) && Lands(w, a) && w.ops[a.id].CompletePut?
    && !Vacant(w.bucket) && w.bucket.publisher.Some? && w.bucket.publisher != Some(w.ops[a.id].token)
  }

  /** Claim call `id` is about to write its claim, unexpired, over an entry that can be found. */
  predicate StaleClaim(w: World, id: nat) {
    && id in w.ops && w.ops[id].ClaimWrite?() && Accepts(w.bucket, w.ops[id]) && w.bucket.clock < w.ops[id].mine.exp
    && !Vacant(w.bucket) && w.bucket.publisher.Some?
  }

  /** From every reachable state, a claim written over an entry that can be found continues to an
      overwritten entry although every entry write is covered by a lease. So what SinglePublication asks
      of claim writes cannot be dropped for any of them. */
  lemma StaleClaimOverwrites(w0: World, before: seq<Action>, id: nat, rev: nat, e: Entry)
      returns (run: seq<Action>, a: Action)
    requires Init(w0) && Legal(w0, before, HeldPuts) && StaleClaim(Run(w0, before, HeldPuts), id)
    requires
      var w := Run(w0, before, HeldPuts);
      && rev > w.bucket.lastRev && e.requestHash == w.ops[id].mine.hash
      && w.bucket.clock + w.bucket.lease0 <= MAX_NANO
    ensures Legal(Run(w0, before, HeldPuts), run, HeldPuts)
    ensures run != [] && run[0] == Advance(id, Acked, rev, "")
    ensures
      var w' := Run(Run(w0, before, HeldPuts), run, HeldPuts);
      Overwrites(w', a) && HeldPuts(w', a)
  {
    InitInv(w0);
    RunInv(w0, before, HeldPuts);
    var w := Run(w0, before, HeldPuts);
    run, a := StaleClaimRuns(w, id, rev, e);
  }

  lemma StaleClaimRuns(w: World, id: nat, rev: nat, e: Entry) returns (run: seq<Action>, a: Action)
    requires Inv(w) && StaleClaim(w, id) && rev > w.bucket.lastRev && e.requestHash == w.ops[id].mine.hash
    requires w.bucket.clock + w.bucket.lease0 <= MAX_NANO
    ensures Legal(w, run, HeldPuts) && run != [] && run[0] == Advance(id, Acked, rev, "")
    ensures Overwrites(Run(w, run, HeldPuts), a) && HeldPuts(Run(w, run, HeldPuts), a)
  {
    var c := w.ops[id].mine;
    var w1 := World(Hand(LandClaim(w.bucket, c, rev), c), w.ops[id := Done(Acquired(c.token))]);
    assert OpOk(w.bucket, w.ops[id]);
    assert Produced(w.bucket, w.bucket.publisher.value, w.bucket.entry.value.entry.value);
    var other := Unused(w1.ops.Keys);
    run := CompleteUpToPut(w1, other, e, 0, rev + 1, HeldPuts);
    Cons(w, Advance(id, Acked, rev, ""), w1, run, HeldPuts);
    run, a := [Advance(id, Acked, rev, "")] + run, Advance(other, Acked, rev + 2, "");
  }

  /** Such a state is reached: Claim looks the entry up before it writes its claim and does not look
      again, so a completion in that gap lets a second worker acquire. */
  lemma LookupGap() returns (run: seq<Action>, id: nat)
    ensures Init(START) && Legal(START, run, HeldPuts) && StaleClaim(Run(START, run, HeldPuts), id)
  {
    var first, w1 := GapLookup();
    var second, w2 := WorkerPublishes(w1, 1, Claim("b", "h", 10), 10, FIRST, 0, 1, HeldPuts);
    Concat(START, first, second, HeldPuts);
    assert "a"[0] != "b"[0];
    var draw := Advance(0, Acked, 0, "a");
    Cons(w2, draw, Step(w2, draw), [], HeldPuts);
    Concat(START, first + second, [draw] + [], HeldPuts);
    run, id := first + second + ([draw] + []), 0;
  }

  /** A Claim call looks up the entry and finds none. */
  lemma GapLookup() returns (run: seq<Action>, w: World)
    ensures Init(START) && Legal(START, run, HeldPuts)
    ensures w == World(START.bucket, map[0 := Drawing("h", 10, 0)]) && Run(START, run, HeldPuts) == w
  {
    var w1 := World(START.bucket, map[0 := Lookup("h", 10)]);
    var wl := World(START.bucket, map[0 := Looked("h", 10, 0, Absent, None)]);
    w := World(START.bucket, map[0 := Drawing("h", 10, 0)]);
    Cons(wl, Advance(0, Acked, 0, ""), w, [], HeldPuts);
    run := [Advance(0, Acked, 0, "")] + [];
    Cons(w1, Advance(0, Acked, 0, ""), wl, run, HeldPuts);
    run := [Advance(0, Acked, 0, "")] + run;
    Cons(START, Spawn(0, Lookup("h", 10)), w1, run, HeldPuts);
    run := [Spawn(0, Lookup("h", 10))] + run;
  }

  /** The entry write is unconditional: if it lands after the extended lease ended, it can hit an
      entry that the worker which took over has published, although every claim was written while no
      entry could be found. */
  lemma LateEntryWrite() returns (run: seq<Action>, a: Action)
    ensures Init(START) && Legal(START, run, VacantClaims)
    ensures Overwrites(Run(START, run, VacantClaims), a) && VacantClaims(Run(START, run, VacantClaims), a)
  {
    var first, w := SlowPut();
    assert "a"[0] != "b"[0];
    var second, w' := WorkerPublishes(w, 2, Claim("b", "h", 30), 10, SECOND, 0, 3, VacantClaims);
    Concat(START, first, second, VacantClaims);
    run, a := first + second, Advance(1, Acked, 7, "");
  }

  /** From every reachable state with an entry write under way, as soon as a new claim can be made (there
      is none, or it has expired, and no entry can be found), the entry write can still be overtaken:
      another worker claims and publishes, every claim is written while no entry can be found, and then
      the write overwrites that worker's entry. So what SinglePublication asks of entry writes cannot be
      dropped for any of them either. */
  lemma LateWriteOverwrites(w0: World, before: seq<Action>, id: nat, c: Claim, ttl: int, e: Entry, rev: nat)
      returns (run: seq<Action>, a: Action)
    requires Init(w0) && Legal(w0, before, VacantClaims)
    requires
      var w := Run(w0, before, VacantClaims);
      && id in w.ops && w.ops[id].CompletePut? && MayClaim(w.bucket, c, ttl) && rev > w.bucket.lastRev
      && (w.bucket.claim.Present? ==> ResolveClaim(w.bucket.claim.value, c.hash, w.bucket.clock).None?)
      && e.requestHash == c.hash && w.bucket.clock + w.bucket.lease0 <= MAX_NANO
    ensures Legal(Run(w0, before, VacantClaims), run, VacantClaims)
    ensures
      var w' := Run(Run(w0, before, VacantClaims), run, VacantClaims);
      Overwrites(w', a) && VacantClaims(w', a) && a.id == id && w'.ops[id] == Run(w0, before, VacantClaims).ops[id]
  {
    InitInv(w0);
    RunInv(w0, before, VacantClaims);
    var w := Run(w0, before, VacantClaims);
    assert OpOk(w.bucket, w.ops[id]);
    var other := Unused(w.ops.Keys);
    var w';
    run, w' := WorkerPublishes(w, other, c, ttl, e, 0, rev, VacantClaims);
    a := Advance(id, Acked, rev + 4, "");
  }

  /** A worker is about to write its entry when its extended lease runs out. */
  lemma SlowPut() returns (run: seq<Action>, w: World)
    ensures Legal(START, run, VacantClaims) && Run(START, run, VacantClaims) == w
    ensures 1 in w.ops && w.ops[1] == CompletePut("a", Wrapped(Some(FIRST), 0), 2, 10) && 2 !in w.ops && 3 !in w.ops
    ensures
      var b := w.bucket;
      && b.clock == 20 && b.lease0 == 10 && b.lastRev == 2 && b.claim == Present(2, Claim("a", "h", 10))
      && b.entry.Absent? && b.hashes.Keys == {"a"} && b.givenUp == {}
  {
    var first := ClaimAlone(START, 0, Claim("a", "h", 10), 10, 1, VacantClaims);
    var w1 := Run(START, first, VacantClaims);
    var second := CompleteUpToPut(w1, 1, FIRST, 0, 2, VacantClaims);
    Concat(START, first, second, VacantClaims);
    var w2 := Run(w1, second, VacantClaims);
    w := w2.(bucket := w2.bucket.(clock := 20));
    Cons(w2, Tick(20), w, [], VacantClaims);
    Concat(START, first + second, [Tick(20)] + [], VacantClaims);
    run := first + second + ([Tick(20)] + []);
  }
}
