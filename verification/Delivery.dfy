/** How one delivery of a message is handled: handleConsumerMessage, dlqConsumerMessage and
    handleDurableMessage, with the limits, delays and validation they rest on. */
module Delivery {

  import opened Options

  const MAX_UINT64: nat := 0xffff_ffff_ffff_ffff
  const MAX_INT64: nat := 0x7fff_ffff_ffff_ffff
  const SECOND: int := 1_000_000_000

  datatype AckPolicy = AckExplicit | AckNone | AckAll | AckUnknown(code: int)

  datatype ConsumerBinding = ConsumerBinding(
    stream: string,
    subject: string,
    durable: string,
    deliverPolicy: int,          // 3 is by start sequence, 4 by start time, 0 to 5 are known
    optStartSeq: nat,
    hasStartTime: bool,
    ackPolicy: AckPolicy,
    replayPolicy: int,           // 0 and 1 are known
    maxDeliver: int,
    ackWait: int,
    maxAckPending: int,
    backOff: seq<int>,
    deadLetter: string
  )

  datatype DurableBinding = DurableBinding(
    stream: string,
    subject: string,
    durable: string,
    deadLetter: string,
    maxDeliver: int,
    ackWait: int,
    retryDelay: int,
    maxAckPending: int
  )

  predicate ValidConsumer(b: ConsumerBinding) {
    && b.stream != "" && b.subject != "" && b.durable != ""
    && b.maxDeliver > 0 && b.ackWait > 0 && b.maxAckPending > 0
    && !(b.ackPolicy.AckNone? && b.deadLetter != "")
    && 0 <= b.deliverPolicy <= 5
    && !b.ackPolicy.AckUnknown?
    && 0 <= b.replayPolicy <= 1
    && (b.deliverPolicy == 3 ==> b.optStartSeq > 0)
    && (b.deliverPolicy == 4 ==> b.hasStartTime)
    && |b.backOff| <= b.maxDeliver
    && forall i :: 0 <= i < |b.backOff| ==> b.backOff[i] > 0
  }

  method ValidateConsumerBinding(b: ConsumerBinding) returns (ok: bool)
    ensures ok <==> ValidConsumer(b)
  {
    if b.stream == "" || b.subject == "" || b.durable == "" {
      return false;
    }
    if b.maxDeliver <= 0 || b.ackWait <= 0 || b.maxAckPending <= 0 {
      return false;
    }
    if b.ackPolicy.AckNone? && b.deadLetter != "" {
      return false;
    }
    if !(0 <= b.deliverPolicy <= 5) || b.ackPolicy.AckUnknown? || !(0 <= b.replayPolicy <= 1) {
      return false;
    }
    if b.deliverPolicy == 3 && b.optStartSeq == 0 {
      return false;
    }
    if b.deliverPolicy == 4 && !b.hasStartTime {
      return false;
    }
    if |b.backOff| > b.maxDeliver {
      return false;
    }
    var i := 0;
    while i < |b.backOff|
      invariant 0 <= i <= |b.backOff|
      invariant forall k :: 0 <= k < i ==> b.backOff[k] > 0
    {
      if b.backOff[i] <= 0 {
        return false;
      }
      i := i + 1;
    }
    return true;
  }

  predicate ValidDurable(b: DurableBinding) {
    && b.stream != "" && b.subject != "" && b.durable != "" && b.deadLetter != ""
    && b.maxDeliver > 0 && b.ackWait > 0 && b.retryDelay > 0 && b.maxAckPending > 0
  }

  // ---------------------------------------------------------------------------------------
  // Limits and delays

  predicate MaxDeliverReached(deliveries: nat, maxDeliver: int) {
    maxDeliver <= 0 || deliveries >= maxDeliver
  }

  predicate MaxDeliverExceeded(deliveries: nat, maxDeliver: int) {
    maxDeliver <= 0 || deliveries > maxDeliver
  }

  /** The first delivery uses the first delay, each later one the next, the last one repeats. */
  function BackoffIndex(deliveries: nat, count: int): (i: int)
    requires deliveries <= MAX_UINT64
    ensures count >= 1 ==> 0 <= i < count
    ensures count >= 1 ==> i == (if deliveries == 0 then 0 else if deliveries <= count then deliveries - 1 else count - 1)
  {
    if count <= 1 || deliveries <= 1 then 0 else
    var last := count - 1;
    if deliveries - 1 >= last then last else deliveries - 1
  }

  /** An error as the handlers see it: its text, and the retry delay it asks for (0 for none). */
  datatype Error = Error(text: string, retryAfter: int)

  function ConsumerRetryDelay(b: ConsumerBinding, deliveries: nat, err: Error): (delay: int)
    requires deliveries <= MAX_UINT64
    ensures (forall i :: 0 <= i < |b.backOff| ==> b.backOff[i] > 0) ==> delay > 0
    ensures err.retryAfter > 0 ==> delay == err.retryAfter
    ensures err.retryAfter <= 0 && b.backOff == [] ==> delay == 1_000_000_000
    ensures err.retryAfter <= 0 && b.backOff != [] && deliveries <= 1 ==> delay == b.backOff[0]
    ensures err.retryAfter <= 0 && 1 <= deliveries <= |b.backOff| ==> delay == b.backOff[deliveries - 1]
    ensures err.retryAfter <= 0 && b.backOff != [] && deliveries > |b.backOff| ==> delay == b.backOff[|b.backOff| - 1]
  {
    if err.retryAfter > 0 then err.retryAfter
    else if |b.backOff| > 0 then b.backOff[BackoffIndex(deliveries, |b.backOff|)]
    else SECOND
  }

  function DurableRetryDelay(err: Error, fallback: int): int {
    if err.retryAfter > 0 then err.retryAfter else fallback
  }

  // ---------------------------------------------------------------------------------------
  // Messages, effects and the environment

  datatype Msg = Msg(subject: string, data: seq<int>, headers: map<string, seq<string>>)

  datatype Meta = Meta(numDelivered: nat, stream: string, sequence: nat)

  /** Why a message was dead-lettered: the action's error, or that the limit had been exceeded. */
  datatype Cause = ActionFailed(text: string) | LimitExceeded

  datatype DeadLetter = DeadLetter(
    stream: string, subject: string, durable: string, deliveries: nat, cause: Cause,
    payload: seq<int>, headers: map<string, string>)

  datatype Effect =
    | Execute
    | Publish(id: string, letter: DeadLetter)
    | Ack
    | Nak(delay: int)
    | Term

  /** Answer to a request on the connection: it took effect and we know, it took effect and we do
      not, or it did not take effect. */
  datatype Sent = Ok | Lost(err: Error) | Refused(err: Error)

  /** Everything the outside answers while one delivery is handled. Each effect happens at most once
      per delivery, so one answer each is enough. */
  datatype Env = Env(meta: Option<Meta>, metaErr: Error, exec: Option<Error>, publish: Sent, term: Sent, ack: Sent)

  function Decimal(n: nat): (s: string)
    ensures s != "" && forall i :: 0 <= i < |s| ==> s[i] != ':'
  {
    var digit := ['0' + (n % 10) as char];
    if n < 10 then digit else Decimal(n / 10) + digit
  }

  /** fmt.Sprintf("%s:%d", stream, sequence) */
  function MsgId(stream: string, sequence: nat): string {
    stream + ":" + Decimal(sequence)
  }

  function FromDecimal(s: string): nat
    requires forall i :: 0 <= i < |s| ==> '0' <= s[i] <= '9'
  {
    if s == "" then 0 else FromDecimal(s[..|s| - 1]) * 10 + (s[|s| - 1] - '0') as nat
  }

  lemma {:induction false} DecimalRoundTrip(n: nat)
    ensures forall i :: 0 <= i < |Decimal(n)| ==> '0' <= Decimal(n)[i] <= '9'
    ensures FromDecimal(Decimal(n)) == n
  {
    var s := Decimal(n);
    if n >= 10 {
      DecimalRoundTrip(n / 10);
      assert s[..|s| - 1] == Decimal(n / 10);
    } else {
      assert s[..|s| - 1] == "";
    }
  }

  /** The dead-letter message ID identifies the stream and the sequence number. */
  lemma MsgIdInjective(s1: string, n1: nat, s2: string, n2: nat)
    requires MsgId(s1, n1) == MsgId(s2, n2)
    ensures s1 == s2 && n1 == n2
  {
    var id := MsgId(s1, n1);
    assert id[|s1|] == ':' && id[|s2|] == ':';
    assert forall i :: |s1| < i < |id| ==> id[i] == Decimal(n1)[i - |s1| - 1];
    assert forall i :: |s2| < i < |id| ==> id[i] == Decimal(n2)[i - |s2| - 1];
    assert |s1| == |s2|;
    assert id[..|s1|] == s1 && id[..|s2|] == s2;
    assert id[|s1| + 1..] == Decimal(n1) && id[|s2| + 1..] == Decimal(n2);
    DecimalRoundTrip(n1);
    DecimalRoundTrip(n2);
  }

  /** A dead letter keeps the first value of every header that has one, and nothing else. */
  ghost predicate FirstValues(h: map<string, seq<string>>, r: map<string, string>) {
    && (forall k :: k in r <==> k in h && |h[k]| > 0)
    && (forall k :: k in r && k in h && |h[k]| > 0 ==> r[k] == h[k][0])
  }

  function FirstHeaders(h: map<string, seq<string>>): (r: map<string, string>)
    ensures FirstValues(h, r)
  {
    map k | k in h && h[k] != [] :: h[k][0]
  }

  /** `letter` is a faithful dead letter of `msg` for this durable. */
  ghost predicate Carries(b: ConsumerBinding, msg: Msg, letter: DeadLetter) {
    && letter.stream == b.stream && letter.durable == b.durable && letter.subject == msg.subject
    && letter.payload == msg.data && FirstValues(msg.headers, letter.headers)
  }

  function LetterFor(b: ConsumerBinding, msg: Msg, cause: Cause, deliveries: nat): DeadLetter {
    DeadLetter(b.stream, msg.subject, b.durable, deliveries, cause, msg.data, FirstHeaders(msg.headers))
  }

  // ---------------------------------------------------------------------------------------
  // The consumer handler as a program: one effect per step

  datatype Pc =
    | Start
    | Executing(deliveries: nat)
    | Acking
    | Publishing(deliveries: nat, cause: Cause, execErr: Option<Error>)   // dlqConsumerMessage
    | Terming(deliveries: nat, execErr: Option<Error>, published: bool)
    | Naking(deliveries: nat, err: Error)
    | Done

  /** After the metadata was read. */
  function AfterMeta(b: ConsumerBinding, deliveries: nat): Pc {
    if !MaxDeliverExceeded(deliveries, b.maxDeliver) then Executing(deliveries)
    else if b.deadLetter != "" then Publishing(deliveries, LimitExceeded, None)
    else Terming(deliveries, None, false)
  }

  /** After the action failed. */
  function AfterFailure(b: ConsumerBinding, deliveries: nat, err: Error): Pc {
    if b.ackPolicy.AckNone? then
      if b.deadLetter != "" then Publishing(1, ActionFailed(err.text), Some(err)) else Done
    else if !MaxDeliverReached(deliveries, b.maxDeliver) then Naking(deliveries, err)
    else if b.deadLetter != "" then Publishing(deliveries, ActionFailed(err.text), Some(err))
    else Terming(deliveries, Some(err), false)
  }

  /** After a failed dead-letter attempt: the action's own error decides the delay if there is one. */
  function AfterDeadLetterFailure(b: ConsumerBinding, deliveries: nat, execErr: Option<Error>, err: Error): Pc {
    if b.ackPolicy.AckNone? then Done
    else Naking(deliveries, if execErr.Some? then execErr.value else err)
  }

  /** The effect the handler issues at `pc`, and where it goes from there. */
  function HandlerStep(b: ConsumerBinding, msg: Msg, pc: Pc, env: Env): (Option<Effect>, Pc)
    requires !pc.Done?
    requires env.meta.Some? ==> env.meta.value.numDelivered <= MAX_UINT64
    requires pc.Naking? ==> pc.deliveries <= MAX_UINT64
  {
    match pc
    case Start =>
      if b.ackPolicy.AckNone? then (None, Executing(1))
      else if env.meta.None? then (None, Naking(1, env.metaErr))
      else (None, AfterMeta(b, env.meta.value.numDelivered))
    case Executing(n) =>
      (Some(Execute),
       match env.exec
       case None => if b.ackPolicy.AckNone? then Done else Acking
       case Some(err) => AfterFailure(b, n, err))
    case Acking => (Some(Ack), Done)
    case Publishing(n, cause, execErr) =>
      if env.meta.None? then (None, AfterDeadLetterFailure(b, n, execErr, env.metaErr)) else
      var id := MsgId(env.meta.value.stream, env.meta.value.sequence);
      (Some(Publish(id, LetterFor(b, msg, cause, n))),
       if !env.publish.Ok? then AfterDeadLetterFailure(b, n, execErr, env.publish.err)
       else if b.ackPolicy.AckNone? then Done
       else Terming(n, execErr, true))
    case Terming(n, execErr, published) =>
      (Some(Term),
       if env.term.Ok? || !published then Done else AfterDeadLetterFailure(b, n, execErr, env.term.err))
    case Naking(n, err) => (Some(Nak(ConsumerRetryDelay(b, n, err))), Done)
  }

  predicate Bounded(pc: Pc) {
    (pc.Executing? || pc.Publishing? || pc.Terming? || pc.Naking?) ==> pc.deliveries <= MAX_UINT64
  }

  predicate Readable(env: Env) {
    env.meta.Some? ==> env.meta.value.numDelivered <= MAX_UINT64
  }

  function PcRank(pc: Pc): nat {
    if pc.Start? then 6 else if pc.Executing? then 5 else if pc.Publishing? then 4
    else if pc.Terming? then 3 else if pc.Naking? then 2 else if pc.Acking? then 1 else 0
  }

  /** All effects of one delivery that is handled without a crash. */
  function Trace(b: ConsumerBinding, msg: Msg, pc: Pc, env: Env): seq<Effect>
    requires Readable(env) && Bounded(pc)
    decreases PcRank(pc)
  {
    if pc.Done? then [] else
    var (effect, next) := HandlerStep(b, msg, pc, env);
    (if effect.Some? then [effect.value] else []) + Trace(b, msg, next, env)
  }

  // ---------------------------------------------------------------------------------------
  // The handlers themselves

  /** dlqConsumerMessage: it reports success exactly when the metadata was readable and every request
      it issued was answered Ok; it terminates only if asked to, and then directly after a publish
      that was answered Ok. */
  method DlqConsumerMessage(b: ConsumerBinding, msg: Msg, cause: Cause, deliveries: nat, terminate: bool, env: Env)
    returns (trace: seq<Effect>, err: Option<Error>)
    ensures err.None? <==> env.meta.Some? && trace != [] && forall i :: 0 <= i < |trace| ==> Granted(trace[i], env)
    ensures forall i :: 0 <= i < |trace| && trace[i].Term? ==>
      terminate && i > 0 && trace[i - 1].Publish? && env.publish.Ok?
    ensures terminate && err.None? ==> trace[|trace| - 1] == Term
    ensures trace == DlqEffects(b, msg, cause, deliveries, terminate, env) && err == DlqError(terminate, env)
  {
    if env.meta.None? {
      return [], Some(env.metaErr);
    }
    var id := MsgId(env.meta.value.stream, env.meta.value.sequence);
    trace := [Publish(id, LetterFor(b, msg, cause, deliveries))];
    if !env.publish.Ok? {
      assert !Granted(trace[0], env);
      return trace, Some(env.publish.err);
    }
    if terminate {
      trace := trace + [Term];
      if !env.term.Ok? {
        assert !Granted(trace[1], env);
        return trace, Some(env.term.err);
      }
    }
    return trace, None;
  }

  /** The answer to a request of the dead-letter attempt is a success that is known. */
  predicate Granted(e: Effect, env: Env) {
    (e.Publish? && env.publish.Ok?) || (e.Term? && env.term.Ok?)
  }

  function DlqEffects(b: ConsumerBinding, msg: Msg, cause: Cause, deliveries: nat, terminate: bool, env: Env): seq<Effect> {
    if env.meta.None? then [] else
    var publish := Publish(MsgId(env.meta.value.stream, env.meta.value.sequence), LetterFor(b, msg, cause, deliveries));
    if terminate && env.publish.Ok? then [publish, Term] else [publish]
  }

  function DlqError(terminate: bool, env: Env): Option<Error> {
    if env.meta.None? then Some(env.metaErr)
    else if !env.publish.Ok? then Some(env.publish.err)
    else if terminate && !env.term.Ok? then Some(env.term.err)
    else None
  }

  /** The program from its dead-letter state on. */
  lemma DlqTrace(b: ConsumerBinding, msg: Msg, n: nat, cause: Cause, execErr: Option<Error>, env: Env)
    requires Readable(env) && n <= MAX_UINT64
    ensures
      var err := DlqError(!b.ackPolicy.AckNone?, env);
      Trace(b, msg, Publishing(n, cause, execErr), env)
        == DlqEffects(b, msg, cause, n, !b.ackPolicy.AckNone?, env)
         + (if err.None? || b.ackPolicy.AckNone? then []
            else [Nak(ConsumerRetryDelay(b, n, if execErr.Some? then execErr.value else err.value))])
  {
    var pc := Publishing(n, cause, execErr);
    var (effect, next) := HandlerStep(b, msg, pc, env);
    if next.Terming? {
      var (effect2, next2) := HandlerStep(b, msg, next, env);
      if next2.Naking? {
        assert Trace(b, msg, next2, env) == [Nak(ConsumerRetryDelay(b, n, next2.err))];
      }
      assert Trace(b, msg, next, env) == [Term] + Trace(b, msg, next2, env);
    } else if next.Naking? {
      assert Trace(b, msg, next, env) == [Nak(ConsumerRetryDelay(b, n, next.err))];
    }
  }

  /** A dead-letter attempt if there is a dead-letter subject, with a negative acknowledgement if it
      failed; a bare termination otherwise. */
  function Disposal(b: ConsumerBinding, msg: Msg, cause: Cause, n: nat, execErr: Option<Error>, env: Env): seq<Effect>
    requires n <= MAX_UINT64
  {
    if b.deadLetter == "" then [Term] else
    var err := DlqError(true, env);
    DlqEffects(b, msg, cause, n, true, env)
      + if err.None? then [] else [Nak(ConsumerRetryDelay(b, n, if execErr.Some? then execErr.value else err.value))]
  }

  lemma DisposalTrace(b: ConsumerBinding, msg: Msg, cause: Cause, n: nat, execErr: Option<Error>, env: Env)
    requires !b.ackPolicy.AckNone? && Readable(env) && n <= MAX_UINT64
    ensures b.deadLetter != "" ==>
      Trace(b, msg, Publishing(n, cause, execErr), env) == Disposal(b, msg, cause, n, execErr, env)
    ensures b.deadLetter == "" ==>
      Trace(b, msg, Terming(n, execErr, false), env) == Disposal(b, msg, cause, n, execErr, env)
  {
    DlqTrace(b, msg, n, cause, execErr, env);
  }

  /** What an acknowledging consumer does with a readable delivery: past the limit it disposes of the
      message without running the action; otherwise it runs the action, and then acknowledges,
      asks for redelivery, or at the limit disposes of the message. */
  lemma TraceCases(b: ConsumerBinding, msg: Msg, env: Env)
    requires !b.ackPolicy.AckNone? && Readable(env) && env.meta.Some?
    ensures
      var n := env.meta.value.numDelivered;
      Trace(b, msg, Start, env) ==
        if MaxDeliverExceeded(n, b.maxDeliver) then Disposal(b, msg, LimitExceeded, n, None, env)
        else if env.exec.None? then [Execute, Ack]
        else if !MaxDeliverReached(n, b.maxDeliver) then [Execute, Nak(ConsumerRetryDelay(b, n, env.exec.value))]
        else [Execute] + Disposal(b, msg, ActionFailed(env.exec.value.text), n, env.exec, env)
  {
    var n := env.meta.value.numDelivered;
    var pc := AfterMeta(b, n);
    assert Trace(b, msg, Start, env) == Trace(b, msg, pc, env);
    if pc.Executing? {
      var next := HandlerStep(b, msg, pc, env).1;
      assert Trace(b, msg, pc, env) == [Execute] + Trace(b, msg, next, env);
      if next.Acking? {
        assert Trace(b, msg, next, env) == [Ack];
      } else if next.Naking? {
        assert Trace(b, msg, next, env) == [Nak(ConsumerRetryDelay(b, n, next.err))];
      } else {
        DisposalTrace(b, msg, ActionFailed(env.exec.value.text), n, env.exec, env);
      }
    } else {
      DisposalTrace(b, msg, LimitExceeded, n, None, env);
    }
  }

  /** A consumer that does not acknowledge runs the action once and settles nothing; it publishes a dead
      letter exactly when the action failed, there is a subject for it and the metadata is readable. */
  ghost predicate UnacknowledgedTrace(b: ConsumerBinding, msg: Msg, env: Env, trace: seq<Effect>) {
    var published := env.exec.Some? && b.deadLetter != "" && env.meta.Some?;
    && |trace| == (if published then 2 else 1) && trace[0] == Execute
    && (published ==>
          && trace[1].Publish? && trace[1].id == MsgId(env.meta.value.stream, env.meta.value.sequence)
          && Carries(b, msg, trace[1].letter)
          && trace[1].letter.deliveries == 1 && trace[1].letter.cause == ActionFailed(env.exec.value.text))
  }

  lemma UnacknowledgedCase(b: ConsumerBinding, msg: Msg, env: Env)
    requires b.ackPolicy.AckNone? && Readable(env)
    ensures UnacknowledgedTrace(b, msg, env, Trace(b, msg, Start, env))
  {
    var pc := Executing(1);
    var next := HandlerStep(b, msg, pc, env).1;
    assert Trace(b, msg, Start, env) == Trace(b, msg, pc, env) == [Execute] + Trace(b, msg, next, env);
    if next.Publishing? {
      DlqTrace(b, msg, 1, next.cause, next.execErr, env);
    }
  }

  /** With unreadable metadata an acknowledging consumer asks for redelivery and does nothing else. */
  lemma UnreadableCase(b: ConsumerBinding, msg: Msg, env: Env)
    requires !b.ackPolicy.AckNone? && env.meta.None?
    ensures Trace(b, msg, Start, env) == [Nak(ConsumerRetryDelay(b, 1, env.metaErr))]
  {
    assert Trace(b, msg, Naking(1, env.metaErr), env) == [Nak(ConsumerRetryDelay(b, 1, env.metaErr))];
  }

  /** The handler's control flow issues exactly the effects of the program that the broker model
      interleaves. */
  method RunConsumerHandler(b: ConsumerBinding, msg: Msg, env: Env) returns (trace: seq<Effect>)
    requires Readable(env)
    ensures trace == Trace(b, msg, Start, env)
  {
    trace := [];
    var deliveries: nat := 1;
    if !b.ackPolicy.AckNone? {
      if env.meta.None? {
        UnreadableCase(b, msg, env);
        return [Nak(ConsumerRetryDelay(b, deliveries, env.metaErr))];
      }
      deliveries := env.meta.value.numDelivered;
      if MaxDeliverExceeded(deliveries, b.maxDeliver) {
        if b.deadLetter != "" {
          var err: Option<Error>;
          trace, err := DlqConsumerMessage(b, msg, LimitExceeded, deliveries, true, env);
          DlqTrace(b, msg, deliveries, LimitExceeded, None, env);
          if err.Some? {
            trace := trace + [Nak(ConsumerRetryDelay(b, deliveries, err.value))];
          }
        } else {
          assert Trace(b, msg, Terming(deliveries, None, false), env) == [Term];
          trace := [Term];
        }
        return;
      }
    }
    ghost var next := HandlerStep(b, msg, Executing(deliveries), env).1;
    assert Trace(b, msg, Start, env) == [Execute] + Trace(b, msg, next, env) by {
      assert Trace(b, msg, Start, env) == Trace(b, msg, Executing(deliveries), env);
    }
    trace := [Execute];
    if env.exec.None? {
      if !b.ackPolicy.AckNone? {
        assert Trace(b, msg, Acking, env) == [Ack];
        trace := trace + [Ack];
      }
      return;
    }
    var execErr := env.exec.value;
    if b.ackPolicy.AckNone? {
      if b.deadLetter != "" {
        var sent, err := DlqConsumerMessage(b, msg, ActionFailed(execErr.text), 1, false, env);
        DlqTrace(b, msg, 1, ActionFailed(execErr.text), env.exec, env);
        trace := trace + sent;
      }
      return;
    }
    if MaxDeliverReached(deliveries, b.maxDeliver) {
      if b.deadLetter != "" {
        var sent, err := DlqConsumerMessage(b, msg, ActionFailed(execErr.text), deliveries, true, env);
        DlqTrace(b, msg, deliveries, ActionFailed(execErr.text), env.exec, env);
        trace := trace + sent;
        if err.Some? {
          trace := trace + [Nak(ConsumerRetryDelay(b, deliveries, execErr))];
        }
      } else {
        assert Trace(b, msg, Terming(deliveries, env.exec, false), env) == [Term];
        trace := trace + [Term];
      }
      return;
    }
    assert Trace(b, msg, Naking(deliveries, execErr), env) == [Nak(ConsumerRetryDelay(b, deliveries, execErr))];
    trace := trace + [Nak(ConsumerRetryDelay(b, deliveries, execErr))];
  }

  /** handleConsumerMessage issues exactly the effects of the program that the broker model interleaves.
      Without acknowledgements it runs the action once and at most publishes a dead letter; with them
      and unreadable metadata it asks for redelivery once and does not run the action. */
  method HandleConsumerMessage(b: ConsumerBinding, msg: Msg, env: Env) returns (trace: seq<Effect>)
    requires Readable(env)
    ensures trace == Trace(b, msg, Start, env)
    ensures b.ackPolicy.AckNone? ==> UnacknowledgedTrace(b, msg, env, trace)
    ensures !b.ackPolicy.AckNone? && env.meta.None? ==> |trace| == 1 && trace[0].Nak?
  {
    trace := RunConsumerHandler(b, msg, env);
    if b.ackPolicy.AckNone? {
      UnacknowledgedCase(b, msg, env);
    } else if env.meta.None? {
      UnreadableCase(b, msg, env);
    }
  }

  /** The explicit-ack consumer a durable worker amounts to. */
  function AsConsumer(b: DurableBinding): ConsumerBinding {
    ConsumerBinding(b.stream, b.subject, b.durable, 0, 0, false, AckExplicit, 0,
                    b.maxDeliver, b.ackWait, b.maxAckPending, [], b.deadLetter)
  }

  /** The same effects in the same order, up to the delay of a negative acknowledgement. */
  predicate SameButDelays(t1: seq<Effect>, t2: seq<Effect>) {
    |t1| == |t2| && forall i :: 0 <= i < |t1| ==> t1[i] == t2[i] || (t1[i].Nak? && t2[i].Nak?)
  }

  predicate NaksWith(t: seq<Effect>, delay: int) {
    forall i :: 0 <= i < |t| && t[i].Nak? ==> t[i].delay == delay
  }

  /** The delay a durable worker asks for: what the error in hand asks for, else the binding's; after
      a failed action whose dead letter failed too, always the binding's. */
  function DurableDelay(b: DurableBinding, env: Env): (delay: int)
    ensures b.retryDelay > 0 ==> delay > 0
    ensures env.meta.None? && env.metaErr.retryAfter > 0 ==> delay == env.metaErr.retryAfter
    ensures env.meta.None? && env.metaErr.retryAfter <= 0 ==> delay == b.retryDelay
    ensures env.meta.Some? && env.exec.Some? && env.meta.value.numDelivered < b.maxDeliver ==>
      delay == if env.exec.value.retryAfter > 0 then env.exec.value.retryAfter else b.retryDelay
    ensures env.meta.Some? && 0 < env.meta.value.numDelivered == b.maxDeliver ==> delay == b.retryDelay
    ensures env.meta.Some? && env.meta.value.numDelivered > b.maxDeliver && DlqError(true, env).Some? ==>
      delay == var err := DlqError(true, env).value; if err.retryAfter > 0 then err.retryAfter else b.retryDelay
  {
    if env.meta.None? then DurableRetryDelay(env.metaErr, b.retryDelay)
    else if MaxDeliverExceeded(env.meta.value.numDelivered, b.maxDeliver) then
      var err := DlqError(true, env);
      if err.Some? then DurableRetryDelay(err.value, b.retryDelay) else b.retryDelay
    else if env.exec.Some? && !MaxDeliverReached(env.meta.value.numDelivered, b.maxDeliver) then
      DurableRetryDelay(env.exec.value, b.retryDelay)
    else b.retryDelay
  }

  /** A dead-letter attempt followed, if it failed, by a negative acknowledgement with any delay. */
  lemma DlqSame(c: ConsumerBinding, msg: Msg, n: nat, cause: Cause, execErr: Option<Error>, delay: int, env: Env)
    requires Readable(env) && n <= MAX_UINT64 && !c.ackPolicy.AckNone?
    ensures
      var t := DlqEffects(c, msg, cause, n, true, env) + if DlqError(true, env).None? then [] else [Nak(delay)];
      SameButDelays(t, Trace(c, msg, Publishing(n, cause, execErr), env)) && NaksWith(t, delay)
  {
    DlqTrace(c, msg, n, cause, execErr, env);
  }

  /** handleDurableMessage issues, for the same answers, the same effects in the same order as the
      consumer handler on the corresponding explicit-ack binding; only the delays differ, and they
      are the durable's own and positive. */
  method HandleDurableMessage(b: DurableBinding, msg: Msg, env: Env) returns (trace: seq<Effect>)
    requires ValidDurable(b) && Readable(env)
    ensures SameButDelays(trace, Trace(AsConsumer(b), msg, Start, env))
    ensures NaksWith(trace, DurableDelay(b, env)) && DurableDelay(b, env) > 0
  {
    ghost var c := AsConsumer(b);
    trace := [];
    if env.meta.None? {
      return [Nak(DurableRetryDelay(env.metaErr, b.retryDelay))];
    }
    TraceCases(c, msg, env);
    var deliveries := env.meta.value.numDelivered;
    if MaxDeliverExceeded(deliveries, b.maxDeliver) {
      var err: Option<Error>;
      trace, err := DlqConsumerMessage(AsConsumer(b), msg, LimitExceeded, deliveries, true, env);
      DlqSame(c, msg, deliveries, LimitExceeded, None, DurableDelay(b, env), env);
      if err.Some? {
        trace := trace + [Nak(DurableRetryDelay(err.value, b.retryDelay))];
      }
      return;
    }
    if env.exec.None? {
      return [Execute, Ack];
    }
    var execErr := env.exec.value;
    if !MaxDeliverReached(deliveries, b.maxDeliver) {
      return [Execute, Nak(DurableRetryDelay(execErr, b.retryDelay))];
    }
    var sent, err := DlqConsumerMessage(AsConsumer(b), msg, ActionFailed(execErr.text), deliveries, true, env);
    DlqSame(c, msg, deliveries, ActionFailed(execErr.text), env.exec, b.retryDelay, env);
    if err.Some? {
      sent := sent + [Nak(b.retryDelay)];
    }
    trace := [Execute] + sent;
  }

  // ---------------------------------------------------------------------------------------
  // What one delivery guarantees

  predicate Landed(sent: Sent) {
    !sent.Refused?
  }

  /** Handling this delivery settled the message at the broker. */
  predicate Settles(b: ConsumerBinding, msg: Msg, env: Env)
    requires Readable(env)
  {
    var t := Trace(b, msg, Start, env);
    (Ack in t && Landed(env.ack)) || (Term in t && Landed(env.term))
  }

  /** Delivery n with readable metadata, settlements that land and a dead-letter publish that works. */
  predicate Favourable(env: Env, n: nat) {
    && env.meta.Some? && env.meta.value.numDelivered == n && n <= MAX_UINT64
    && Landed(env.ack) && Landed(env.term) && env.publish.Ok?
  }

  /** From the limit on, a favourable delivery always settles. */
  lemma SettlesAtLimit(b: ConsumerBinding, msg: Msg, env: Env, n: nat)
    requires !b.ackPolicy.AckNone? && Favourable(env, n) && MaxDeliverReached(n, b.maxDeliver)
    ensures Settles(b, msg, env)
  {
    var pc := AfterMeta(b, n);
    assert Trace(b, msg, Start, env) == Trace(b, msg, pc, env);
    if pc.Executing? {
      var next := HandlerStep(b, msg, pc, env).1;
      assert Trace(b, msg, pc, env) == [Execute] + Trace(b, msg, next, env);
      FinishSettles(b, msg, next, env);
      assert forall e :: e in Trace(b, msg, next, env) ==> e in Trace(b, msg, pc, env);
    } else {
      FinishSettles(b, msg, pc, env);
    }
  }

  lemma FinishSettles(b: ConsumerBinding, msg: Msg, pc: Pc, env: Env)
    requires !b.ackPolicy.AckNone? && Readable(env) && Bounded(pc) && env.meta.Some? && env.publish.Ok?
    requires pc.Acking? || pc.Terming? || pc.Publishing?
    ensures if pc.Acking? then Ack in Trace(b, msg, pc, env) else Term in Trace(b, msg, pc, env)
  {
    if pc.Publishing? {
      DlqTrace(b, msg, pc.deliveries, pc.cause, pc.execErr, env);
      assert Term in DlqEffects(b, msg, pc.cause, pc.deliveries, true, env);
    } else {
      var (effect, next) := HandlerStep(b, msg, pc, env);
      assert Trace(b, msg, pc, env) == [effect.value] + Trace(b, msg, next, env);
    }
  }

  /** Every negative acknowledgement of a validated consumer carries a positive delay. */
  lemma {:induction false} PositiveDelays(b: ConsumerBinding, msg: Msg, pc: Pc, env: Env)
    requires ValidConsumer(b) && Readable(env) && Bounded(pc)
    ensures forall e :: e in Trace(b, msg, pc, env) && e.Nak? ==> e.delay > 0
    decreases PcRank(pc)
  {
    if !pc.Done? {
      PositiveDelays(b, msg, HandlerStep(b, msg, pc, env).1, env);
    }
  }

  /** A message is terminated only after its dead letter was published, if there is a dead-letter
      subject, and without one only when the delivery limit is reached. */
  lemma {:induction false} TermAfterPublish(b: ConsumerBinding, msg: Msg, pc: Pc, env: Env, i: nat)
    requires Readable(env) && Bounded(pc) && b.deadLetter != "" && !pc.Terming?
    requires i < |Trace(b, msg, pc, env)| && Trace(b, msg, pc, env)[i].Term?
    ensures i > 0 && Trace(b, msg, pc, env)[i - 1].Publish? && env.publish.Ok?
    decreases PcRank(pc)
  {
    if pc.Publishing? {
      DlqTrace(b, msg, pc.deliveries, pc.cause, pc.execErr, env);
    } else {
      var (effect, next) := HandlerStep(b, msg, pc, env);
      TermAfterPublish(b, msg, next, env, if effect.Some? then i - 1 else i);
    }
  }
}
