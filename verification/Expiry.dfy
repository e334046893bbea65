/** Expiry arithmetic and entry decoding of the idempotency ledger.
    Times are Unix nanoseconds and durations are nanoseconds, both signed 64-bit in the source. */
module Expiry {
  import opened Options

  const MAX_NANO: int := 0x7fff_ffff_ffff_ffff
  const MIN_NANO: int := -0x8000_0000_0000_0000

  predicate Int64(x: int) {
    MIN_NANO <= x <= MAX_NANO
  }

  /** Go's time.Sub saturates instead of wrapping. */
  function SaturatingSub(a: int, b: int): int {
    if a - b > MAX_NANO then MAX_NANO else if a - b < MIN_NANO then MIN_NANO else a - b
  }

  /** The stored expiry: zero means "never", None means the TTL is rejected as too large. */
  function ExpiryOf(now: int, ttl: int): (r: Option<int>)
    ensures Int64(now) && Int64(ttl) ==> (r == None <==> ttl > 0 && now + ttl > MAX_NANO)
    ensures r.Some? && Int64(now) && Int64(ttl) ==> Int64(r.value)
  {
    if ttl <= 0 then Some(0)
    else if ttl > SaturatingSub(MAX_NANO, now) then None
    else Some(now + ttl)
  }

  /** A recorded response. */
  datatype Entry = Entry(status: int, requestHash: string, body: seq<int>)

  /** What the entry key of the bucket can hold: text that is no JSON object, the wrapped form
      this version writes (whose entry may be null), or the bare form of earlier versions. */
  datatype RawEntry = Garbled | Wrapped(entry: Option<Entry>, exp: int) | Legacy(bare: Entry)

  datatype Decoded = Missing | Found(entry: Entry) | Corrupted

  function DecodeEntry(raw: RawEntry, now: int): Decoded {
    match raw
    case Garbled => Corrupted
    case Wrapped(None, _) => Corrupted
    case Wrapped(Some(e), exp) => if exp != 0 && now >= exp then Missing else Found(e)
    case Legacy(e) => Found(e)
  }

  function MarshalEntry(e: Entry, now: int, ttl: int): Option<RawEntry> {
    match ExpiryOf(now, ttl)
    case None => None
    case Some(exp) => Some(Wrapped(Some(e), exp))
  }

  /** Round trip: an entry written at `written` reads back unchanged exactly until its expiry,
      and forever when its TTL is not positive. */
  lemma EntryRoundTrip(e: Entry, written: int, ttl: int, now: int)
    requires 0 <= written <= MAX_NANO && Int64(ttl) && written <= now
    requires MarshalEntry(e, written, ttl).Some?
    ensures
      var raw := MarshalEntry(e, written, ttl).value;
      && (DecodeEntry(raw, now) == Found(e) <==> ttl <= 0 || now < written + ttl)
      && (DecodeEntry(raw, now) == Missing <==> ttl > 0 && written + ttl <= now)
  {
  }

  /** Entries of earlier versions never expire, and what is no entry is never found. */
  lemma OtherFormats(raw: RawEntry, now: int)
    ensures raw.Legacy? ==> DecodeEntry(raw, now) == Found(raw.bare)
    ensures raw.Garbled? || (raw.Wrapped? && raw.entry.None?) ==> DecodeEntry(raw, now).Corrupted?
  {
  }
}
