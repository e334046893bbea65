/** The lease protocol of KVIdempotencyCoordinator on one idempotency key.

    Any number of Claim, RenewClaim, Complete and Release calls run at once. Every call into the
    key-value bucket is one atomic step, so the steps of different calls interleave freely. The
    environment picks each reply: a write may be refused with any error, and it may land although
    the caller is told that it failed. Local clock readings are steps of their own, so time can
    pass between a read, the decision taken on it and the write that follows. */
module Ledger {
  import opened Options
  import opened Expiry

  type Token = string
  type Hash = string

  datatype Claim = Claim(token: Token, hash: Hash, exp: int)

  /** One bucket key: revisions are bucket-wide and strictly increase; a delete leaves a marker. */
  datatype Slot<+V> = Absent | Deleted(rev: nat) | Present(rev: nat, value: V)

  datatype KVError = KeyExists | RevisionMismatch | KeyMissing | OtherError

  /** Acked: the call took effect and the caller knows. Lost: it took effect but the caller sees
      OtherError. Refused: it did not take effect. */
  datatype Reply = Acked | Lost | Refused(err: KVError)

  datatype Outcome =
    | Acquired(token: Token)
    | InProgress
    | Conflict
    | Completed(entry: Entry)
    | Succeeded
    | Failed

  /** A running coordinator call and its program counter. In the Claim states `mine` is the claim
      the call is about to write, `now` the clock reading it was built from, and `seen` the number
      of entry writes that had landed when the call looked the entry up; `found` is what it read then
      and `author` who had published that. */
  datatype Op =
    // Claim
    | Lookup(hash: Hash, ttl: int)
    | Looked(hash: Hash, ttl: int, seen: nat, found: Slot<RawEntry>, author: Option<Token>)
    | Drawing(hash: Hash, ttl: int, seen: nat)
    | Creating(mine: Claim, now: int, seen: nat)
    | Inspecting(mine: Claim, now: int, seen: nat, err: KVError)
    | Recreating(mine: Claim, now: int, seen: nat)
    | Replacing(mine: Claim, now: int, seen: nat, rev: nat)
    // RenewClaim
    | RenewGet(token: Token, ttl: int)
    | RenewRead(token: Token, ttl: int, rev: nat, held: Claim)
    | RenewWrite(token: Token, rev: nat, next: Claim)
    // Complete
    | CompleteStart(token: Token, entry: Entry, ttl: int)
    | CompleteGet(token: Token, raw: RawEntry)
    | CompleteRead(token: Token, raw: RawEntry, rev: nat, held: Claim)
    | CompleteExtend(token: Token, raw: RawEntry, rev: nat, next: Claim)
    | CompletePut(token: Token, raw: RawEntry, rev: nat, exp: int)
    | CompleteDelete(token: Token, rev: nat)
    // Release
    | ReleaseGet(token: Token)
    | ReleaseDelete(token: Token, rev: nat)
    // finished
    | Done(outcome: Outcome)
  {
    /** A Claim call that has drawn its token and not finished. */
    predicate Candidate?() {
      Creating? || Inspecting? || Recreating? || Replacing?
    }

    /** A write of the claim key that replaces or creates it on behalf of a Claim call. */
    predicate ClaimWrite?() {
      Creating? || Recreating? || Replacing?
    }
  }

  /** The bucket and the shared clock. `first` and the fields from `hashes` on are history: no step reads them
      except to keep callers honest (a caller only knows tokens that some Claim returned). */
  datatype Bucket = Bucket(
    clock: int,
    lease0: int,                     // action.DefaultIdempotencyLeaseTTL
    lastRev: nat,
    claim: Slot<Claim>,
    entry: Slot<RawEntry>,
    first: Slot<RawEntry>,           // what the entry key held at the start
    hashes: map<Token, Hash>,        // every token drawn, with its request hash
    handed: set<Token>,              // tokens some Claim call returned as acquired
    granted: map<Token, int>,        // last expiry written to the bucket under a token
    told: map<Token, int>,           // last expiry whose write was acknowledged to the caller
    givenUp: set<Token>,             // tokens whose own Complete or Release deleted the claim
    puts: nat,                       // entry writes landed so far
    publisher: Option<Token>,        // token whose Complete wrote the current entry
    outputs: set<(Token, Entry)>     // entries handed to Complete, by token
  )

  datatype World = World(bucket: Bucket, ops: map<nat, Op>)

  datatype Action =
    | Tick(now: int)
    | Spawn(id: nat, op: Op)
    | Advance(id: nat, reply: Reply, rev: nat, token: Token)
    | Abort(id: nat)                 // context cancelled, or the process died

  // ---------------------------------------------------------------------------------------
  // Decisions taken on values read from the bucket

  function EffectiveTTL(b: Bucket, ttl: int): int {
    if ttl <= 0 then b.lease0 else ttl
  }

  predicate Sound(c: Claim) {
    c.token != "" && c.exp > 0
  }

  /** What Claim decides about the bucket entry it looked up. */
  function ResolveEntry(s: Slot<RawEntry>, hash: Hash, now: int): Option<Outcome> {
    if !s.Present? then None else
    match DecodeEntry(s.value, now)
    case Corrupted => Some(Failed)
    case Missing => None
    case Found(e) =>
      if e.requestHash != "" && e.requestHash != hash then Some(Conflict) else Some(Completed(e))
  }

  /** What Claim decides about an existing claim: None means it may be replaced. */
  function ResolveClaim(c: Claim, hash: Hash, now: int): Option<Outcome> {
    if !Sound(c) then Some(Failed)
    else if c.hash != "" && c.hash != hash then Some(Conflict)
    else if now < c.exp then Some(InProgress)
    else None
  }

  /** The extended claim that RenewClaim and Complete write back, None when they must refuse. */
  function Extended(c: Claim, token: Token, now: int, ttl: int): Option<Claim> {
    if !Sound(c) || c.token != token || now >= c.exp then None else
    match ExpiryOf(now, ttl)
    case None => None
    case Some(exp) => Some(c.(exp := exp))
  }

  // ---------------------------------------------------------------------------------------
  // Effects

  /** A compare-and-set succeeds exactly on the key's current revision. */
  predicate At<V>(s: Slot<V>, rev: nat) {
    !s.Absent? && s.rev == rev
  }

  function LandClaim(b: Bucket, c: Claim, rev: nat): Bucket {
    b.(claim := Present(rev, c), lastRev := rev, granted := b.granted[c.token := c.exp])
  }

  function LandDelete(b: Bucket, token: Token, rev: nat): Bucket {
    b.(claim := Deleted(rev), lastRev := rev, givenUp := b.givenUp + {token})
  }

  function LandEntry(b: Bucket, token: Token, raw: RawEntry, rev: nat): Bucket {
    b.(entry := Present(rev, raw), lastRev := rev, puts := b.puts + 1, publisher := Some(token))
  }

  function Tell(b: Bucket, c: Claim): Bucket {
    b.(told := b.told[c.token := c.exp])
  }

  /** A Claim call's write was acknowledged: its caller now knows the token. */
  function Hand(b: Bucket, c: Claim): Bucket {
    Tell(b, c).(handed := b.handed + {c.token})
  }

  // ---------------------------------------------------------------------------------------
  // One step of each call: the new bucket and the call's next state

  function ClaimStep(b: Bucket, op: Op, reply: Reply, rev: nat, token: Token): (Bucket, Op)
    requires op.Lookup? || op.Looked? || op.Drawing? || op.Candidate?()
  {
    match op
    case Lookup(hash, ttl) =>
      if !reply.Acked? then (b, Done(Failed))
      else (b, Looked(hash, EffectiveTTL(b, ttl), b.puts, b.entry, b.publisher))
    case Looked(hash, ttl, seen, found, _) => (
      match ResolveEntry(found, hash, b.clock)
      case Some(o) => (b, Done(o))
      case None => (b, Drawing(hash, ttl, seen)))
    case Drawing(hash, ttl, seen) => (
      match ExpiryOf(b.clock, ttl)
      case None => (b, Done(Failed))
      case Some(exp) =>
        (b.(hashes := b.hashes[token := hash]), Creating(Claim(token, hash, exp), b.clock, seen)))
    case Creating(mine, now, seen) => (
      match reply
      case Acked => (Hand(LandClaim(b, mine, rev), mine), Done(Acquired(mine.token)))
      case Lost => (LandClaim(b, mine, rev), Inspecting(mine, now, seen, OtherError))
      case Refused(err) => (b, Inspecting(mine, now, seen, err)))
    case Inspecting(mine, now, seen, err) =>
      if !reply.Acked? then (b, Done(Failed))
      else if !b.claim.Present? then
        (b, if err.KeyExists? then Recreating(mine, now, seen) else Done(Failed))
      else (
        match ResolveClaim(b.claim.value, mine.hash, now)
        case Some(o) => (b, Done(o))
        case None => (b, Replacing(mine, now, seen, b.claim.rev)))
    case Recreating(mine, now, seen) => (
      match reply
      case Acked => (Hand(LandClaim(b, mine, rev), mine), Done(Acquired(mine.token)))
      case Lost => (LandClaim(b, mine, rev), Done(Failed))
      case Refused(err) => (b, Done(if err.KeyExists? then InProgress else Failed)))
    case Replacing(mine, now, seen, prior) => (
      match reply
      case Acked => (Hand(LandClaim(b, mine, rev), mine), Done(Acquired(mine.token)))
      case Lost => (LandClaim(b, mine, rev), Done(Failed))
      case Refused(RevisionMismatch) => (b, Done(InProgress))
      case Refused(KeyMissing) => (b, Recreating(mine, now, seen))
      case Refused(_) => (b, Done(Failed)))
  }

  function RenewStep(b: Bucket, op: Op, reply: Reply, rev: nat): (Bucket, Op)
    requires op.RenewGet? || op.RenewRead? || op.RenewWrite?
  {
    match op
    case RenewGet(token, ttl) =>
      if !reply.Acked? || !b.claim.Present? then (b, Done(Failed))
      else (b, RenewRead(token, EffectiveTTL(b, ttl), b.claim.rev, b.claim.value))
    case RenewRead(token, ttl, prior, held) => (
      match Extended(held, token, b.clock, ttl)
      case None => (b, Done(Failed))
      case Some(next) => (b, RenewWrite(token, prior, next)))
    case RenewWrite(token, prior, next) => (
      match reply
      case Acked => (Tell(LandClaim(b, next, rev), next), Done(Succeeded))
      case Lost => (LandClaim(b, next, rev), Done(Failed))
      case Refused(_) => (b, Done(Failed)))
  }

  function CompleteStep(b: Bucket, op: Op, reply: Reply, rev: nat): (Bucket, Op)
    requires op.CompleteStart? || op.CompleteGet? || op.CompleteRead?
      || op.CompleteExtend? || op.CompletePut? || op.CompleteDelete?
  {
    match op
    case CompleteStart(token, entry, ttl) => (
      match MarshalEntry(entry, b.clock, ttl)
      case None => (b, Done(Failed))
      case Some(raw) => (b, CompleteGet(token, raw)))
    case CompleteGet(token, raw) =>
      if !reply.Acked? || !b.claim.Present? then (b, Done(Failed))
      else (b, CompleteRead(token, raw, b.claim.rev, b.claim.value))
    case CompleteRead(token, raw, prior, held) => (
      match Extended(held, token, b.clock, b.lease0)
      case None => (b, Done(Failed))
      case Some(next) => (b, CompleteExtend(token, raw, prior, next)))
    case CompleteExtend(token, raw, prior, next) => (
      match reply
      case Acked => (Tell(LandClaim(b, next, rev), next), CompletePut(token, raw, rev, next.exp))
      case Lost => (LandClaim(b, next, rev), Done(Failed))
      case Refused(_) => (b, Done(Failed)))
    case CompletePut(token, raw, mine, exp) => (
      match reply
      case Acked => (LandEntry(b, token, raw, rev), CompleteDelete(token, mine))
      case Lost => (LandEntry(b, token, raw, rev), Done(Failed))
      case Refused(_) => (b, Done(Failed)))
    case CompleteDelete(token, mine) => (
      match reply
      case Acked => (LandDelete(b, token, rev), Done(Succeeded))
      case Lost => (LandDelete(b, token, rev), Done(Failed))
      case Refused(_) => (b, Done(Failed)))
  }

  function ReleaseStep(b: Bucket, op: Op, reply: Reply, rev: nat): (Bucket, Op)
    requires op.ReleaseGet? || op.ReleaseDelete?
  {
    match op
    case ReleaseGet(token) =>
      if reply == Refused(KeyMissing) then (b, Done(Succeeded))
      else if !reply.Acked? then (b, Done(Failed))
      else if !b.claim.Present? || b.claim.value.token != token then (b, Done(Succeeded))
      else (b, ReleaseDelete(token, b.claim.rev))
    case ReleaseDelete(token, prior) => (
      match reply
      case Acked => (LandDelete(b, token, rev), Done(Succeeded))
      case Lost => (LandDelete(b, token, rev), Done(Failed))
      case Refused(KeyMissing) => (b, Done(Succeeded))
      case Refused(_) => (b, Done(Failed)))
  }

  function OpStep(b: Bucket, op: Op, reply: Reply, rev: nat, token: Token): (Bucket, Op)
    requires !op.Done?
  {
    if op.Lookup? || op.Looked? || op.Drawing? || op.Candidate?() then ClaimStep(b, op, reply, rev, token)
    else if op.RenewGet? || op.RenewRead? || op.RenewWrite? then RenewStep(b, op, reply, rev)
    else if op.ReleaseGet? || op.ReleaseDelete? then ReleaseStep(b, op, reply, rev)
    else CompleteStep(b, op, reply, rev)
  }

  // ---------------------------------------------------------------------------------------
  // Schedules

  predicate Write?(op: Op) {
    || op.ClaimWrite?() || op.RenewWrite? || op.CompleteExtend? || op.CompletePut?
    || op.CompleteDelete? || op.ReleaseDelete?
  }

  /** The bucket's own condition for the pending write of `op` to take effect. */
  predicate Accepts(b: Bucket, op: Op)
    requires Write?(op)
  {
    match op
    case Creating(_, _, _) => !b.claim.Present?
    case Recreating(_, _, _) => !b.claim.Present?
    case Replacing(_, _, _, prior) => At(b.claim, prior)
    case RenewWrite(_, prior, _) => At(b.claim, prior)
    case CompleteExtend(_, _, prior, _) => At(b.claim, prior)
    case CompletePut(_, _, _, _) => true
    case CompleteDelete(_, mine) => At(b.claim, mine)
    case ReleaseDelete(_, prior) => At(b.claim, prior)
  }

  /** The reply the environment chose is possible, and so is the token the call drew. */
  predicate Possible(b: Bucket, op: Op, reply: Reply, rev: nat, token: Token) {
    && !op.Done?
    && (Write?(op) && !reply.Refused? ==> Accepts(b, op) && rev > b.lastRev)
    && (op.Drawing? ==> token != "" && token !in b.hashes)
  }

  /** What a caller can pass: only tokens it got from Claim, and to Complete only an entry that
      carries the request hash it claimed with. */
  predicate Callable(b: Bucket, op: Op) {
    match op
    case Lookup(_, ttl) => Int64(ttl)
    case RenewGet(token, ttl) => token in b.handed && Int64(ttl)
    case CompleteStart(token, entry, ttl) =>
      token in b.handed && token in b.hashes && entry.requestHash == b.hashes[token] && Int64(ttl)
    case ReleaseGet(token) => token in b.handed
    case _ => false
  }

  predicate Enabled(w: World, a: Action) {
    match a
    case Tick(now) => w.bucket.clock <= now <= MAX_NANO
    case Spawn(id, op) => id !in w.ops && Callable(w.bucket, op)
    case Abort(id) => id in w.ops && !w.ops[id].Done?
    case Advance(id, reply, rev, token) => id in w.ops && Possible(w.bucket, w.ops[id], reply, rev, token)
  }

  function Step(w: World, a: Action): World
    requires Enabled(w, a)
  {
    match a
    case Tick(now) => w.(bucket := w.bucket.(clock := now))
    case Spawn(id, op) =>
      World(
        if op.CompleteStart? then w.bucket.(outputs := w.bucket.outputs + {(op.token, op.entry)}) else w.bucket,
        w.ops[id := op])
    case Abort(id) => w.(ops := w.ops[id := Done(Failed)])
    case Advance(id, reply, rev, token) =>
      var (b', op') := OpStep(w.bucket, w.ops[id], reply, rev, token);
      World(b', w.ops[id := op'])
  }

  /** A fresh bucket, except that the entry key may hold anything at all. */
  predicate Init(w: World) {
    var b := w.bucket;
    && 0 <= b.clock <= MAX_NANO
    && 0 < b.lease0 <= MAX_NANO
    && b.claim.Absent? && b.first == b.entry
    && b.hashes == map[] && b.granted == map[] && b.told == map[]
    && b.handed == {} && b.givenUp == {} && b.outputs == {}
    && b.publisher == None
    && w.ops == map[]
  }

  /** A legal schedule: every action is enabled where it happens and satisfies hypothesis `h`. */
  ghost predicate Legal(w: World, run: seq<Action>, h: (World, Action) -> bool)
    decreases |run|
  {
    run == [] || (Enabled(w, run[0]) && h(w, run[0]) && Legal(Step(w, run[0]), run[1..], h))
  }

  ghost function Run(w: World, run: seq<Action>, h: (World, Action) -> bool): World
    requires Legal(w, run, h)
    decreases |run|
  {
    if run == [] then w else Run(Step(w, run[0]), run[1..], h)
  }

  /** No hypothesis at all. */
  predicate Anything(w: World, a: Action) {
    true
  }
}
