/**
 MQTT 3.1.1 framing as pure functions on byte sequences: the remaining-length
 code, one parsing step, and the one-pass reference parser.

 The laws proved here are what the incremental client of MqttClient.dfy is
 measured against: a step never changes its mind when more bytes arrive, and
 parsing a stream in two pieces is parsing it in one.
 */
module MqttFraming {
  import opened Bytes
  import opened Common

  /** Size of the receive buffer of the client (MQTT_BUF_SZ). */
  const BUF_SIZE: nat := 4096
  /** sizeof(topic) - 1 and sizeof(payload) - 1 in handle_publish. */
  const MAX_TOPIC: nat := 127
  const MAX_PAYLOAD: nat := 1023

  const CONNACK: Byte := 0x20
  const PUBLISH: Byte := 0x30

  // ── Remaining length (section 2.2.3 of MQTT 3.1.1) ──

  /** A decoded length field, or a field cut before its last byte. */
  datatype LengthField = Cut | Length(value: nat, used: nat)

  function EncodeLength(n: nat): (s: seq<Byte>)
  {
    if n < 128 then [n] else [n % 128 + 128] + EncodeLength(n / 128)
  }

  /** Reads one length field of at most `room` bytes from the front of `s`. */
  function ReadLength(s: seq<Byte>, room: nat): (f: LengthField)
    requires room > 0
    ensures f.Length? ==> 1 <= f.used <= room && f.used <= |s|
    ensures f.Cut? ==> |s| < room
  {
    if s == [] then Cut
    else if s[0] < 128 || room == 1 then Length(s[0] % 128, 1)
    else
      match ReadLength(s[1..], room - 1)
      case Cut => Cut
      case Length(v, u) => Length(s[0] % 128 + 128 * v, u + 1)
  }

  function Pow128(k: nat): (p: nat)
    ensures p >= 1
  {
    if k == 0 then 1 else 128 * Pow128(k - 1)
  }

  /** Every length below 128^room is written in at most `room` bytes and read back, whatever follows. */
  lemma {:induction false} LengthRoundTrip(n: nat, room: nat, rest: seq<Byte>)
    requires room > 0 && n < Pow128(room)
    ensures 1 <= |EncodeLength(n)| <= room
    ensures ReadLength(EncodeLength(n) + rest, room) == Length(n, |EncodeLength(n)|)
  {
    var e := EncodeLength(n);
    assert (e + rest)[0] == e[0];
    if n >= 128 {
      assert room > 1 by {
        assert Pow128(1) == 128 * Pow128(0);
      }
      LengthRoundTrip(n / 128, room - 1, rest);
      assert (e + rest)[1..] == EncodeLength(n / 128) + rest;
    }
  }

  /** The code is minimal: a length takes at most k bytes exactly when it is below 128^k. */
  lemma {:induction false} LengthIsMinimal(n: nat, k: nat)
    requires k > 0
    ensures |EncodeLength(n)| <= k <==> n < Pow128(k)
  {
    assert Pow128(1) == 128 * Pow128(0);
    if n >= 128 && k > 1 {
      LengthIsMinimal(n / 128, k - 1);
    } else if n < 128 && k > 1 {
      assert Pow128(k) == 128 * Pow128(k - 1);
    }
  }

  /** The range of section 2.2.3: every n below 2^28 takes 1 to 4 bytes and round-trips. */
  lemma {:induction false} RemainingLengthRoundTrip(n: nat, rest: seq<Byte>)
    requires n < 0x1000_0000
    ensures 1 <= |EncodeLength(n)| <= 4
    ensures ReadLength(EncodeLength(n) + rest, 4) == Length(n, |EncodeLength(n)|)
  {
    assert Pow128(2) == 128 * Pow128(1);
    assert Pow128(4) == 128 * Pow128(3) == 128 * (128 * Pow128(2));
    LengthRoundTrip(n, 4, rest);
  }

  /** A field that is complete keeps its value when more bytes follow. */
  lemma {:induction false} ReadLengthExtends(s: seq<Byte>, t: seq<Byte>, room: nat)
    requires room > 0 && ReadLength(s, room).Length?
    ensures ReadLength(s + t, room) == ReadLength(s, room)
  {
    assert (s + t)[0] == s[0];
    if s[0] >= 128 && room > 1 {
      assert (s + t)[1..] == s[1..] + t;
      ReadLengthExtends(s[1..], t, room - 1);
    }
  }

  /** The length field read so far: `val` from its first `k` bytes, the rest read as `f`. */
  function Glue(val: nat, k: nat, f: LengthField): LengthField {
    match f
    case Cut => Cut
    case Length(v, u) => Length(val + Pow128(k) * v, k + u)
  }

  lemma {:induction false} GlueArithmetic(val: nat, k: nat, low: nat, f: LengthField)
    requires f.Length?
    ensures Glue(val, k, Length(low + 128 * f.value, f.used + 1)) == Glue(val + low * Pow128(k), k + 1, f)
    ensures Glue(val, k, Length(low, 1)) == Length(val + low * Pow128(k), k + 1)
  {
    var p, v := Pow128(k), f.value;
    assert p * (low + 128 * v) == low * p + 128 * p * v;
  }

  /** One turn of the decoding loop. */
  lemma {:induction false} GlueStep(mem: seq<Byte>, val: nat, k: nat)
    requires k < 4 <= |mem|
    requires ReadLength(mem, 4) == Glue(val, k, ReadLength(mem[k..], 4 - k))
    ensures var val' := val + mem[k] % 128 * Pow128(k);
            ReadLength(mem, 4) ==
              if mem[k] >= 128 && k < 3 then Glue(val', k + 1, ReadLength(mem[k + 1..], 3 - k)) else Length(val', k + 1)
  {
    var here, low := ReadLength(mem[k..], 4 - k), mem[k] % 128;
    assert mem[k..][1..] == mem[k + 1..];
    if mem[k] >= 128 && k < 3 {
      var f := ReadLength(mem[k + 1..], 3 - k);
      assert here == Length(low + 128 * f.value, f.used + 1);
      GlueArithmetic(val, k, low, f);
    } else {
      assert here == Length(low, 1);
      GlueArithmetic(val, k, low, here);
    }
  }

  /** A field that is cut uses every byte there is, and at least one more. */
  lemma {:induction false} CutFieldNeedsMore(s: seq<Byte>, t: seq<Byte>, room: nat)
    requires room > 0 && ReadLength(s, room).Cut? && ReadLength(s + t, room).Length?
    ensures ReadLength(s + t, room).used > |s|
  {
    if s == [] {
    } else {
      assert (s + t)[0] == s[0];
      assert (s + t)[1..] == s[1..] + t;
      CutFieldNeedsMore(s[1..], t, room - 1);
    }
  }

  // ── One parsing step ──

  /** What process_packet decides about the bytes it is shown. */
  datatype Step =
    | NeedMore
    | Reject
    | Frame(kind: Byte, body: seq<Byte>, total: nat)

  /** Packet type: the high nibble of the first byte. */
  function Kind(b: Byte): Byte { b - b % 16 }

  predicate RefusedConnack(kind: Byte, body: seq<Byte>) {
    kind == CONNACK && !(|body| >= 2 && body[1] == 0)
  }

  /** Total size announced by the header at the front of `s`; 0 while the header is incomplete. */
  function Announced(s: seq<Byte>): nat {
    if |s| < 2 then 0
    else match ReadLength(s[1..], 4)
      case Cut => 0
      case Length(v, u) => 1 + u + v
  }

  function Next(s: seq<Byte>): (r: Step)
    ensures r.Frame? ==> 2 <= r.total <= |s|
    ensures r.Reject? ==> |s| >= 2
  {
    if Announced(s) == 0 || |s| < Announced(s) then NeedMore
    else
      var f := ReadLength(s[1..], 4);
      var body := s[1 + f.used..Announced(s)];
      if RefusedConnack(Kind(s[0]), body) then Reject
      else Frame(Kind(s[0]), body, Announced(s))
  }

  /** A header, once complete, announces the same size whatever follows it. */
  lemma {:induction false} AnnouncedExtends(s: seq<Byte>, t: seq<Byte>)
    requires Announced(s) > 0
    ensures Announced(s + t) == Announced(s)
  {
    assert (s + t)[1..] == s[1..] + t;
    ReadLengthExtends(s[1..], t, 4);
  }

  /** A decision other than "need more data" is final. */
  lemma {:induction false} NextExtends(s: seq<Byte>, t: seq<Byte>)
    requires !Next(s).NeedMore?
    ensures Next(s + t) == Next(s)
  {
    AnnouncedExtends(s, t);
    assert (s + t)[1..] == s[1..] + t;
    ReadLengthExtends(s[1..], t, 4);
    var f := ReadLength(s[1..], 4);
    assert (s + t)[1 + f.used..Announced(s)] == s[1 + f.used..Announced(s)];
  }

  // ── The decision as the client computes it: reading past the valid bytes ──

  /**
   process_packet looks at `len` valid bytes at `at`, but decodes the length
   field from whatever memory holds there: up to three bytes past the valid
   ones, stale or foreign, take part.
   */
  function NextInMemory(mem: seq<Byte>, at: nat, len: nat): Step
    requires at + len <= |mem| && at + 5 <= |mem|
  {
    var f := ReadLength(mem[at + 1..], 4);
    var total := 1 + f.used + f.value;
    if len < 2 || len < total then NeedMore
    else
      var body := mem[at + 1 + f.used..at + total];
      if RefusedConnack(Kind(mem[at]), body) then Reject else Frame(Kind(mem[at]), body, total)
  }

  /** Bytes past the valid ones never change the decision, even when the length field itself is cut. */
  lemma {:induction false} JunkIsIrrelevant(mem: seq<Byte>, at: nat, len: nat)
    requires at + len <= |mem| && at + 5 <= |mem|
    ensures NextInMemory(mem, at, len) == Next(mem[at..at + len])
  {
    hide ReadLength, RefusedConnack, Kind;
    if len >= 2 {
      var valid, junk := mem[at..at + len], mem[at + len..];
      assert mem[at + 1..] == valid[1..] + junk;
      if ReadLength(valid[1..], 4).Cut? {
        CutFieldNeedsMore(valid[1..], junk, 4);
      } else {
        ReadLengthExtends(valid[1..], junk, 4);
        var f := ReadLength(valid[1..], 4);
        var total := 1 + f.used + f.value;
        if total <= len {
          assert mem[at + 1 + f.used..at + total] == valid[1 + f.used..total];
        }
      }
    }
  }

  // ── Dispatch ──

  /** What a PUBLISH hands to the callback. */
  datatype Message = Message(topic: seq<Byte>, payload: seq<Byte>)

  function CutTo(s: seq<Byte>, limit: nat): (r: seq<Byte>)
    ensures |r| == (if |s| < limit then |s| else limit) && r == s[..|r|]
  {
    if |s| < limit then s else s[..limit]
  }

  function U16(hi: Byte, lo: Byte): nat { hi * 256 + lo }

  /**
   handle_publish: a malformed body makes no call; otherwise the callback gets C strings cut at
   127 and 1023 bytes.
   */
  function Published(body: seq<Byte>): Option<Message> {
    if |body| < 2 then None
    else
      var n := U16(body[0], body[1]);
      if n + 2 > |body| then None
      else Some(Message(CString(CutTo(body[2..2 + n], MAX_TOPIC)), CString(CutTo(body[2 + n..], MAX_PAYLOAD))))
  }

  /** The call one parsing step makes, if it makes one. */
  function Call(step: Step): seq<Message> {
    if step.Frame? && step.kind == PUBLISH && Published(step.body).Some? then [Published(step.body).value] else []
  }

  /** The callback invocations made by a series of parsing steps. */
  function Calls(steps: seq<Step>): seq<Message> {
    if steps == [] then [] else Call(steps[0]) + Calls(steps[1..])
  }

  lemma {:induction false} CallsOfSnoc(steps: seq<Step>, step: Step)
    ensures Calls(steps + [step]) == Calls(steps) + Call(step)
  {
    hide Call;
    if steps == [] {
      assert steps + [step] == [step] && [step][1..] == [];
    } else {
      assert (steps + [step])[1..] == steps[1..] + [step];
      CallsOfSnoc(steps[1..], step);
    }
  }

  // ── The one-pass reference parser ──

  /** The steps taken and the bytes still waiting for more. */
  datatype Outcome = Outcome(steps: seq<Step>, tail: seq<Byte>)

  function Before(step: Step, o: Outcome): Outcome { Outcome([step] + o.steps, o.tail) }

  function Then(a: Outcome, b: Outcome): Outcome { Outcome(a.steps + b.steps, b.tail) }

  /** Bytes taken by a step: a refused CONNACK is skipped byte by byte. */
  function Advance(step: Step): nat
    requires !step.NeedMore?
  {
    if step.Reject? then 1 else step.total
  }

  /** Parses as far as the bytes allow. */
  function Run(s: seq<Byte>): (o: Outcome)
    decreases |s|
  {
    var step := Next(s);
    if step.NeedMore? then Outcome([], s) else Before(step, Run(s[Advance(step)..]))
  }

  /** What is left is a suffix on which the parser waits for more. */
  lemma {:induction false} RunStops(s: seq<Byte>)
    ensures Next(Run(s).tail).NeedMore?
    ensures |Run(s).tail| <= |s|
    decreases |s|
  {
    if !Next(s).NeedMore? {
      RunStops(s[Advance(Next(s))..]);
    }
  }

  /** `done` are the steps the parse loop takes on `s` while moving from the front to `offset`. */
  ghost predicate Walk(s: seq<Byte>, done: seq<Step>, offset: nat)
    decreases |done|
  {
    if done == [] then offset == 0
    else
      && done[0] == Next(s) && !done[0].NeedMore?
      && Advance(done[0]) <= offset
      && Walk(s[Advance(done[0])..], done[1..], offset - Advance(done[0]))
  }

  /** One turn of the parse loop. */
  lemma {:induction false} WalkStep(s: seq<Byte>, done: seq<Step>, offset: nat, step: Step)
    requires offset <= |s| && Walk(s, done, offset) && step == Next(s[offset..]) && !step.NeedMore?
    ensures offset + Advance(step) <= |s| && Walk(s, done + [step], offset + Advance(step))
    decreases |done|
  {
    hide Next;
    if done == [] {
      assert s[0..] == s;
      assert Walk(s[Advance(step)..], [], 0);
    } else {
      var n := Advance(done[0]);
      assert s[n..][offset - n..] == s[offset..];
      assert (done + [step])[1..] == done[1..] + [step];
      WalkStep(s[n..], done[1..], offset - n, step);
    }
  }

  /** The parse loop ends with the reference parser's result. */
  lemma {:induction false} WalkEnd(s: seq<Byte>, done: seq<Step>, offset: nat)
    requires offset <= |s| && Walk(s, done, offset) && Next(s[offset..]).NeedMore?
    ensures Run(s) == Outcome(done, s[offset..])
    decreases |done|
  {
    hide Next;
    if done == [] {
      assert s[0..] == s;
    } else {
      var n := Advance(done[0]);
      assert s[n..][offset - n..] == s[offset..];
      WalkEnd(s[n..], done[1..], offset - n);
      assert Run(s) == Before(done[0], Run(s[n..]));
      assert [done[0]] + done[1..] == done;
    }
  }

  lemma {:induction false} BeforeThen(step: Step, a: Outcome, b: Outcome)
    ensures Before(step, Then(a, b)) == Then(Before(step, a), b)
  {
    assert [step] + (a.steps + b.steps) == [step] + a.steps + b.steps;
  }

  /** Parsing `s` and then going on with `t` is parsing `s + t` at once. */
  lemma {:induction false} RunInTwo(s: seq<Byte>, t: seq<Byte>)
    ensures Run(s + t) == Then(Run(s), Run(Run(s).tail + t))
    decreases |s|
  {
    var step := Next(s);
    if !step.NeedMore? {
      NextExtends(s, t);
      var rest := s[Advance(step)..];
      assert (s + t)[Advance(step)..] == rest + t;
      RunInTwo(rest, t);
      BeforeThen(step, Run(rest), Run(Run(rest).tail + t));
    }
  }

  // ── Publishing ──

  /** The packet send_publish emits (QoS 0, no retain). */
  function PublishPacket(topic: seq<Byte>, payload: seq<Byte>): seq<Byte>
    requires |topic| < 65536
  {
    [PUBLISH] + EncodeLength(2 + |topic| + |payload|) + PublishBody(topic, payload)
  }

  function PublishBody(topic: seq<Byte>, payload: seq<Byte>): seq<Byte>
    requires |topic| < 65536
  {
    [|topic| / 256, |topic| % 256] + topic + payload
  }

  /** send_publish refuses anything that could overflow its packet buffer. */
  predicate Sendable(topic: seq<Byte>, payload: seq<Byte>) {
    2 + |topic| + |payload| + 5 <= BUF_SIZE
  }

  /** What arrives: the topic and the payload, cut at 127 and 1023 bytes and the payload at its first NUL. */
  function Delivery(topic: seq<Byte>, payload: seq<Byte>): Message {
    Message(CutTo(topic, MAX_TOPIC), CString(CutTo(payload, MAX_PAYLOAD)))
  }

  /** A payload without NUL bytes and within the limit arrives as it was sent. */
  lemma {:induction false} TextArrivesWhole(topic: seq<Byte>, payload: seq<Byte>)
    requires 0 !in payload && |topic| <= MAX_TOPIC && |payload| <= MAX_PAYLOAD
    ensures Delivery(topic, payload) == Message(topic, payload)
  {
    assert CutTo(payload, MAX_PAYLOAD) == payload && CutTo(topic, MAX_TOPIC) == topic;
  }

  /** What send_publish emits is read back as one frame carrying that topic and payload. */
  lemma {:induction false} PublishIsParsed(topic: seq<Byte>, payload: seq<Byte>, rest: seq<Byte>)
    requires Sendable(topic, payload) && 0 !in topic
    ensures var p := PublishPacket(topic, payload);
            && |p| <= BUF_SIZE
            && Announced(p + rest) == |p|
            && Next(p + rest).Frame? && Next(p + rest).total == |p|
            && Next(p + rest).kind == PUBLISH
            && Published(Next(p + rest).body) == Some(Delivery(topic, payload))
  {
    hide Published, Delivery, ReadLength, EncodeLength;
    var n := 2 + |topic| + |payload|;
    var body := PublishBody(topic, payload);
    var p := PublishPacket(topic, payload);
    var len := EncodeLength(n);
    RemainingLengthRoundTrip(n, body + rest);
    assert p + rest == [PUBLISH] + (len + (body + rest));
    assert (p + rest)[1..] == len + (body + rest);
    assert (p + rest)[1 + |len|..1 + |len| + n] == body;
    BodyIsParsed(topic, payload);
  }

  lemma {:induction false} BodyIsParsed(topic: seq<Byte>, payload: seq<Byte>)
    requires |topic| < 65536 && 0 !in topic
    ensures Published(PublishBody(topic, payload)) == Some(Delivery(topic, payload))
  {
    hide CString;
    assert CString(CutTo(topic, MAX_TOPIC)) == CutTo(topic, MAX_TOPIC);
    var body := PublishBody(topic, payload);
    assert body[2..2 + |topic|] == topic;
    assert body[2 + |topic|..] == payload;
    assert U16(body[0], body[1]) == |topic|;
  }

  function Packets(msgs: seq<(seq<Byte>, seq<Byte>)>): seq<Byte>
    requires AllSendable(msgs)
  {
    if msgs == [] then [] else PublishPacket(msgs[0].0, msgs[0].1) + Packets(msgs[1..])
  }

  function Deliveries(msgs: seq<(seq<Byte>, seq<Byte>)>): seq<Message> {
    if msgs == [] then [] else [Delivery(msgs[0].0, msgs[0].1)] + Deliveries(msgs[1..])
  }

  ghost predicate AllSendable(msgs: seq<(seq<Byte>, seq<Byte>)>) {
    forall i :: 0 <= i < |msgs| ==> Sendable(msgs[i].0, msgs[i].1) && 0 !in msgs[i].0
  }

  /** Concatenated publishes are delivered in order, none lost, nothing left over. */
  lemma {:induction false} PublishesAreDelivered(msgs: seq<(seq<Byte>, seq<Byte>)>)
    requires AllSendable(msgs)
    ensures Calls(Run(Packets(msgs)).steps) == Deliveries(msgs)
    ensures Run(Packets(msgs)).tail == []
    ensures FitsBuffer(Packets(msgs))
    decreases |msgs|
  {
    hide PublishPacket, Published, Delivery, Next, Announced;
    if msgs == [] {
    } else {
      var p, rest := PublishPacket(msgs[0].0, msgs[0].1), Packets(msgs[1..]);
      PublishIsParsed(msgs[0].0, msgs[0].1, rest);
      PublishesAreDelivered(msgs[1..]);
      assert (p + rest)[|p|..] == rest;
    }
  }

  // ── When a stream fits the buffer ──

  /**
   Every header the reference parser meets either announces at most 4096 bytes
   or comes so late that fewer than 4096 bytes are left.
   */
  predicate FitsBuffer(s: seq<Byte>)
    decreases |s|
  {
    && (Announced(s) > BUF_SIZE ==> |s| < BUF_SIZE)
    && (Next(s).NeedMore? || FitsBuffer(s[Advance(Next(s))..]))
  }

  /** Bytes the parser is still waiting on never fill the buffer. */
  lemma {:induction false} UnparsedTailIsSmall(tail: seq<Byte>, rest: seq<Byte>)
    requires Next(tail).NeedMore? && FitsBuffer(tail + rest)
    ensures |tail| < BUF_SIZE
  {
    if |tail| >= BUF_SIZE {
      AnnouncedExtends(tail, rest);
    }
  }

  lemma {:induction false} FitsAfterRun(s: seq<Byte>, t: seq<Byte>)
    requires FitsBuffer(s + t)
    ensures FitsBuffer(Run(s).tail + t)
    decreases |s|
  {
    var step := Next(s);
    if !step.NeedMore? {
      NextExtends(s, t);
      assert (s + t)[Advance(step)..] == s[Advance(step)..] + t;
      FitsAfterRun(s[Advance(step)..], t);
    }
  }

  /** Up to 4096 bytes fit, unless they are all one unfinished frame. */
  lemma {:induction false} ShortStreamFits(s: seq<Byte>)
    requires |s| <= BUF_SIZE && |Run(s).tail| < BUF_SIZE
    ensures FitsBuffer(s)
    decreases |s|
  {
    if !Next(s).NeedMore? {
      ShortStreamFits(s[Advance(Next(s))..]);
    }
  }

  lemma {:induction false} FitsInTwo(s: seq<Byte>, t: seq<Byte>)
    requires FitsBuffer(s) && FitsBuffer(Run(s).tail + t)
    ensures FitsBuffer(s + t)
    decreases |s|
  {
    var step := Next(s);
    if !step.NeedMore? {
      NextExtends(s, t);
      AnnouncedExtends(s, t);
      assert (s + t)[Advance(step)..] == s[Advance(step)..] + t;
      FitsInTwo(s[Advance(step)..], t);
    }
  }
}
