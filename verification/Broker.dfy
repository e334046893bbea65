/** At-least-once delivery and dead-lettering over whole runs: a stream of source messages, one
    durable consumer with any number of concurrent handlers, and the dead-letter stream.

    A message may be redelivered whenever it is not settled, also while an earlier delivery is still
    being handled; a handler may crash at any point; every request may be refused, or take effect
    although its handler is told that it failed. The consumer delivers new messages in the order of
    the stream, and no further one while as many as MaxAckPending are delivered and not settled. The
    dead-letter stream drops a message whose ID it still remembers. */
module Broker {
  import opened Options
  import opened Delivery

  datatype Status = Pending | Acked | Terminated

  /** A source message with its history: the deliveries whose handler ran the action, how often
      the action ran, and whether it ever succeeded (or was replayed). */
  datatype Source = Source(msg: Msg, delivered: nat, status: Status, ran: set<nat>, runs: nat, succeeded: bool)

  /** A handler at work on delivery `number` of message `sequence`. */
  datatype Handler = Handler(sequence: nat, number: nat, pc: Pc)

  datatype Stored = Stored(id: string, letter: DeadLetter)

  datatype Server = Server(
    sources: map<nat, Source>,
    dlq: seq<Stored>,
    window: set<string>            // IDs inside the dead-letter stream's dedup window
  )

  datatype State = State(server: Server, handlers: map<nat, Handler>)

  datatype Action =
    | Arrive(sequence: nat, msg: Msg)
    | Deliver(sequence: nat, id: nat)
    | Handle(id: nat, env: Env)
    | Crash(id: nat)
    | Forget(msgId: string)                              // the dedup window moves on
    | Foreign(sequence: nat, letter: DeadLetter)         // another durable of the stream dead-letters

  const EMPTY: State := State(Server(map[], [], {}), map[])

  /** An acknowledgement settles its message; under AckAll also every earlier delivered one. */
  function SettleAck(b: ConsumerBinding, sources: map<nat, Source>, q: nat): map<nat, Source> {
    map k | k in sources ::
      if sources[k].status.Pending? && (k == q || (b.ackPolicy.AckAll? && k < q && sources[k].delivered > 0))
      then sources[k].(status := Acked) else sources[k]
  }

  function SettleTerm(src: Source): Source {
    if src.status.Pending? then src.(status := Terminated) else src
  }

  function StoreLetter(v: Server, id: string, letter: DeadLetter): Server {
    if id in v.window then v else v.(dlq := v.dlq + [Stored(id, letter)], window := v.window + {id})
  }

  function RunAction(src: Source, n: nat, ok: bool): Source {
    src.(ran := src.ran + {n}, runs := src.runs + 1, succeeded := src.succeeded || ok)
  }

  function Apply(b: ConsumerBinding, v: Server, h: Handler, effect: Effect, env: Env): Server
    requires h.sequence in v.sources
  {
    var q := h.sequence;
    match effect
    case Execute => v.(sources := v.sources[q := RunAction(v.sources[q], h.number, env.exec.None?)])
    case Publish(id, letter) => if env.publish.Refused? then v else StoreLetter(v, id, letter)
    case Ack => if env.ack.Refused? then v else v.(sources := SettleAck(b, v.sources, q))
    case Term => if env.term.Refused? then v else v.(sources := v.sources[q := SettleTerm(v.sources[q])])
    case Nak(_) => v
  }

  /** Metadata is unreadable, or it is the truth about the delivery. */
  predicate Honest(b: ConsumerBinding, h: Handler, env: Env) {
    env.meta.None? || env.meta == Some(Meta(h.number, b.stream, h.sequence))
  }

  /** A handler works on a known message. */
  predicate Working(v: Server, h: Handler) {
    h.sequence in v.sources && h.number <= MAX_UINT64 && Bounded(h.pc)
  }

  function HandleOne(b: ConsumerBinding, v: Server, h: Handler, env: Env): (Server, Handler)
    requires Working(v, h) && !h.pc.Done? && Honest(b, h, env)
  {
    var (effect, next) := HandlerStep(b, v.sources[h.sequence].msg, h.pc, env);
    (if effect.Some? then Apply(b, v, h, effect.value, env) else v, h.(pc := next))
  }

  /** Messages that were delivered and are not settled. */
  function Outstanding(v: Server): set<nat> {
    set k | k in v.sources && v.sources[k].delivered > 0 && v.sources[k].status.Pending?
  }

  /** A message may be delivered for the first time: all earlier ones were delivered, and the consumer's
      limit leaves room. Redelivery needs no room, since an unsettled message already counts. */
  predicate Deliverable(b: ConsumerBinding, v: Server, q: nat)
    requires q in v.sources
  {
    v.sources[q].delivered == 0 ==>
      && (forall k :: k in v.sources && k < q ==> v.sources[k].delivered > 0)
      && (b.ackPolicy.AckNone? || |Outstanding(v)| < b.maxAckPending)
  }

  predicate Enabled(b: ConsumerBinding, s: State, a: Action) {
    match a
    case Arrive(q, msg) => forall k :: k in s.server.sources ==> k < q
    case Deliver(q, id) =>
      && q in s.server.sources && s.server.sources[q].status.Pending?
      && s.server.sources[q].delivered < MAX_UINT64 && Deliverable(b, s.server, q) && id !in s.handlers
    case Handle(id, env) =>
      id in s.handlers && Working(s.server, s.handlers[id]) && !s.handlers[id].pc.Done? && Honest(b, s.handlers[id], env)
    case Crash(id) => id in s.handlers
    case Forget(msgId) => true
    case Foreign(q, letter) => q in s.server.sources
  }

  function Step(b: ConsumerBinding, s: State, a: Action): State
    requires Enabled(b, s, a)
  {
    var v := s.server;
    match a
    case Arrive(q, msg) =>
      s.(server := v.(sources := v.sources[q := Source(msg, 0, Pending, {}, 0, false)]))
    case Deliver(q, id) =>
      var n := v.sources[q].delivered + 1;
      State(v.(sources := v.sources[q := v.sources[q].(delivered := n)]), s.handlers[id := Handler(q, n, Start)])
    case Handle(id, env) =>
      var (v', h') := HandleOne(b, v, s.handlers[id], env);
      State(v', s.handlers[id := h'])
    case Crash(id) => s.(handlers := s.handlers[id := s.handlers[id].(pc := Done)])
    case Forget(msgId) => s.(server := v.(window := v.window - {msgId}))
    case Foreign(q, letter) => s.(server := StoreLetter(v, MsgId(b.stream, q), letter))
  }

  ghost predicate Legal(b: ConsumerBinding, s: State, run: seq<Action>, h: (State, Action) -> bool)
    decreases |run|
  {
    run == [] || (Enabled(b, s, run[0]) && h(s, run[0]) && Legal(b, Step(b, s, run[0]), run[1..], h))
  }

  ghost function Run(b: ConsumerBinding, s: State, run: seq<Action>, h: (State, Action) -> bool): State
    requires Legal(b, s, run, h)
    decreases |run|
  {
    if run == [] then s else Run(b, Step(b, s, run[0]), run[1..], h)
  }

  predicate Anything(s: State, a: Action) { true }

  /** One durable per stream: nobody else publishes under this stream's message IDs. */
  predicate OnlyDurable(s: State, a: Action) { !a.Foreign? }

  /** Everything happens within the dedup window. */
  predicate WithinWindow(s: State, a: Action) { !a.Forget? }
}
