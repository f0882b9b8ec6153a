/**
 The MQTT client: a 4096-byte receive buffer filled by socket reads and drained
 in place by the parse loop, and the theorem that the way TCP cuts the stream
 into reads does not matter.
 */
module MqttClient {
  import opened Bytes
  import opened MqttFraming

  // ── What a sequence of reads does, on values ──

  /** One read of `chunk` into a buffer holding `held`; a full buffer is discarded first. */
  function Feed(held: seq<Byte>, chunk: seq<Byte>): Outcome {
    Run((if |held| >= BUF_SIZE then [] else held) + chunk)
  }

  function FeedAll(held: seq<Byte>, chunks: seq<seq<Byte>>): Outcome
    decreases |chunks|
  {
    if chunks == [] then Outcome([], held)
    else
      var first := Feed(held, chunks[0]);
      Then(first, FeedAll(first.tail, chunks[1..]))
  }

  function Space(held: seq<Byte>): nat {
    if |held| >= BUF_SIZE then BUF_SIZE else BUF_SIZE - |held|
  }

  lemma {:induction false} NothingToFeed(held: seq<Byte>, chunks: seq<seq<Byte>>, steps: seq<Step>)
    requires chunks == []
    ensures FeedAll(held, chunks).tail == held && steps + FeedAll(held, chunks).steps == steps
  {
  }

  /** Reads a socket can produce: never more than the space the client offers. */
  predicate PossibleReads(held: seq<Byte>, chunks: seq<seq<Byte>>)
    decreases |chunks|
  {
    chunks != [] ==>
      && |chunks[0]| <= Space(held)
      && PossibleReads(Feed(held, chunks[0]).tail, chunks[1..])
  }

  lemma {:induction false} FeedStep(held: seq<Byte>, chunks: seq<seq<Byte>>, steps: seq<Step>)
    requires chunks != [] && PossibleReads(held, chunks)
    ensures |chunks[0]| <= Space(held)
    ensures var first := Feed(held, chunks[0]);
            && PossibleReads(first.tail, chunks[1..])
            && FeedAll(held, chunks).tail == FeedAll(first.tail, chunks[1..]).tail
            && steps + FeedAll(held, chunks).steps == steps + first.steps + FeedAll(first.tail, chunks[1..]).steps
  {
    hide Feed, Space;
  }

  /** The buffer is never full between reads, so the "buffer full" reset never fires. */
  predicate NeverFull(held: seq<Byte>, chunks: seq<seq<Byte>>)
    decreases |chunks|
  {
    && |held| < BUF_SIZE
    && (chunks != [] ==> NeverFull(Feed(held, chunks[0]).tail, chunks[1..]))
  }

  function Concat(chunks: seq<seq<Byte>>): seq<Byte> {
    if chunks == [] then [] else chunks[0] + Concat(chunks[1..])
  }

  lemma {:induction false} ReadsFollowReference(held: seq<Byte>, chunks: seq<seq<Byte>>)
    requires Next(held).NeedMore? && FitsBuffer(held + Concat(chunks))
    ensures NeverFull(held, chunks)
    ensures FeedAll(held, chunks) == Run(held + Concat(chunks))
    decreases |chunks|
  {
    UnparsedTailIsSmall(held, Concat(chunks));
    if chunks == [] {
      assert held + Concat(chunks) == held;
    } else {
      var seen, rest := held + chunks[0], Concat(chunks[1..]);
      assert held + Concat(chunks) == seen + rest;
      RunInTwo(seen, rest);
      FitsAfterRun(seen, rest);
      RunStops(seen);
      ReadsFollowReference(Run(seen).tail, chunks[1..]);
    }
  }

  lemma {:induction false} NeverFullMeansFits(held: seq<Byte>, chunks: seq<seq<Byte>>)
    requires Next(held).NeedMore? && PossibleReads(held, chunks) && NeverFull(held, chunks)
    ensures FitsBuffer(held + Concat(chunks))
    decreases |chunks|
  {
    if chunks == [] {
      assert held + Concat(chunks) == held;
    } else {
      var seen, rest := held + chunks[0], Concat(chunks[1..]);
      assert held + Concat(chunks) == seen + rest;
      assert Feed(held, chunks[0]) == Run(seen);
      ShortStreamFits(seen);
      RunStops(seen);
      NeverFullMeansFits(Run(seen).tail, chunks[1..]);
      FitsInTwo(seen, rest);
    }
  }

  /**
   Chunking does not matter. For a stream that fits the buffer, every cutting
   into reads dispatches what the one-pass parser dispatches, in the same order,
   leaves exactly its unparsed tail in the buffer, and never discards anything.
   */
  lemma {:induction false} ChunkingIsIrrelevant(chunks: seq<seq<Byte>>)
    requires FitsBuffer(Concat(chunks))
    ensures NeverFull([], chunks)
    ensures FeedAll([], chunks) == Run(Concat(chunks))
  {
    assert [] + Concat(chunks) == Concat(chunks);
    ReadsFollowReference([], chunks);
  }

  /** The condition is exact: for reads a socket can produce, the reset fires if and only if the stream does not fit. */
  lemma {:induction false} ResetFiresExactlyWhenTooLong(chunks: seq<seq<Byte>>)
    requires PossibleReads([], chunks)
    ensures NeverFull([], chunks) <==> FitsBuffer(Concat(chunks))
  {
    assert [] + Concat(chunks) == Concat(chunks);
    if NeverFull([], chunks) {
      NeverFullMeansFits([], chunks);
    } else if FitsBuffer(Concat(chunks)) {
      ChunkingIsIrrelevant(chunks);
    }
  }

  /** Publishes reach the callback in order and none is lost, however the bytes arrive. */
  lemma {:induction false} PublishesSurviveChunking(msgs: seq<(seq<Byte>, seq<Byte>)>, chunks: seq<seq<Byte>>)
    requires AllSendable(msgs) && Concat(chunks) == Packets(msgs)
    ensures Calls(FeedAll([], chunks).steps) == Deliveries(msgs)
    ensures FeedAll([], chunks).tail == []
  {
    PublishesAreDelivered(msgs);
    ChunkingIsIrrelevant(chunks);
  }

  // ── Looking at memory ──

  /** decode_remaining_length: reads up to four bytes of memory, valid or not. */
  method DecodeRemainingLength(mem: seq<Byte>, at: nat) returns (val: nat, used: nat)
    requires at + 4 <= |mem|
    ensures ReadLength(mem[at..], 4) == Length(val, used)
  {
    hide ReadLength;
    ghost var field := mem[at..];
    val, used := 0, 0;
    var weight, more := 1, true;
    while more && used < 4
      invariant used <= 4 && weight == Pow128(used)
      invariant ReadLength(field, 4) ==
                  if more && used < 4 then Glue(val, used, ReadLength(field[used..], 4 - used)) else Length(val, used)
    {
      var b: int := mem[at + used];
      GlueStep(field, val, used);
      var low := b % 128;
      val := val + low * weight;
      weight := 128 * weight;
      used := used + 1;
      more := b >= 128;
    }
  }

  /**
   The header of process_packet: what the `len` valid bytes at `at` amount to.
   `mem` is all the memory the code can run into: the valid bytes, stale bytes
   of the buffer, and what lies behind the buffer.
   */
  method Examine(mem: seq<Byte>, at: nat, len: nat) returns (step: Step)
    requires at + len <= |mem| && at + 5 <= |mem|
    ensures step == Next(mem[at..at + len])
  {
    hide Next, ReadLength;
    JunkIsIrrelevant(mem, at, len);
    if len < 2 { return NeedMore; }
    var remaining, rlBytes := DecodeRemainingLength(mem, at + 1);
    var total := 1 + rlBytes + remaining;
    if len < total { return NeedMore; }

    var kind := Kind(mem[at]);
    var body := mem[at + 1 + rlBytes..at + total];
    if kind == CONNACK && !(remaining >= 2 && body[1] == 0) {
      return Reject;
    }
    return Frame(kind, body, total);
  }

  // ── The client object ──

  datatype ReadResult = Data(bytes: seq<Byte>) | WouldBlock | Failed | Closed

  class Client {
    const buf: array<Byte>
    var bufLen: nat
    var connected: bool
    var open: bool              // fd != INVALID_SOCK
    var inbox: seq<Message>     // callback invocations, in order
    ghost var steps: seq<Step>  // parsing steps taken, in order

    ghost predicate Valid()
      reads this, buf
    {
      && buf.Length == BUF_SIZE
      && bufLen <= BUF_SIZE
      && (connected ==> open)
      && inbox == Calls(steps)
    }

    ghost function Held(): seq<Byte>
      requires Valid()
      reads this, buf
    {
      buf[..bufLen]
    }

    constructor ()
      ensures Valid() && Held() == [] && !connected && !open && steps == [] && fresh(buf)
    {
      buf := new Byte[BUF_SIZE](_ => 0);
      bufLen, connected, open, inbox, steps := 0, false, false, [], [];
    }

    /** The dispatch of process_packet. */
    method Dispatch(step: Step)
      requires Valid() && open && !step.NeedMore?
      modifies this`connected, this`inbox, this`steps
      ensures Valid() && steps == old(steps) + [step]
      ensures connected == (old(connected) || (step.Frame? && step.kind == CONNACK))
    {
      CallsOfSnoc(steps, step);
      steps := steps + [step];
      if step.Frame? {
        if step.kind == CONNACK {
          connected := true;
        } else if step.kind == PUBLISH {
          var message := Published(step.body);
          if message.Some? { inbox := inbox + [message.value]; }
        }
      }
    }

    /** The parse loop: dispatches every complete packet and returns where it stopped. */
    method ParseLoop(beyond: seq<Byte>) returns (offset: nat)
      requires Valid() && open && |beyond| >= 4
      modifies this`connected, this`inbox, this`steps
      ensures Valid() && offset <= bufLen
      ensures Run(Held()).tail == Held()[offset..]
      ensures steps == old(steps) + Run(Held()).steps
    {
      hide Next, Run, Calls;
      ghost var held, done := Held(), [];
      offset := 0;
      var mem := buf[..] + beyond;
      assert mem[..bufLen] == held;
      while offset < bufLen
        invariant Valid() && open && bufLen == |held|
        invariant Held() == held
        invariant steps == old(steps) + done
        invariant offset <= bufLen && Walk(held, done, offset)
        decreases bufLen - offset
      {
        var step := Examine(mem, offset, bufLen - offset);
        assert mem[offset..bufLen] == held[offset..];
        if step.NeedMore? { break; }
        Dispatch(step);
        WalkStep(held, done, offset, step);
        done := done + [step];
        offset := offset + Advance(step);
      }
      WalkEnd(held, done, offset);
    }

    /** Parses everything that is complete and moves the rest to the front of the buffer. */
    method Drain(beyond: seq<Byte>)
      requires Valid() && open && |beyond| >= 4
      modifies this`connected, this`inbox, this`steps, this`bufLen, buf
      ensures Valid()
      ensures Held() == Run(old(Held())).tail
      ensures steps == old(steps) + Run(old(Held())).steps
    {
      var offset := ParseLoop(beyond);
      Compact(offset);
    }

    /** Moves the unprocessed bytes to the front. */
    method Compact(offset: nat)
      requires Valid() && offset <= bufLen
      modifies this`bufLen, buf
      ensures Valid() && Held() == old(Held())[offset..]
    {
      if 0 < offset < bufLen {
        var n := bufLen - offset;
        forall i | 0 <= i < n {
          buf[i] := buf[offset + i];
        }
        bufLen := n;
      } else if offset >= bufLen {
        bufLen := 0;
      }
    }

    /** mqttc_process: one read event on the socket. */
    method Process(read: ReadResult, beyond: seq<Byte>) returns (rc: int)
      requires Valid() && |beyond| >= 4
      requires read.Data? ==> 0 < |read.bytes| <= Space(Held())
      modifies this`connected, this`inbox, this`steps, this`bufLen, this`open, buf
      ensures Valid()
      ensures !old(open) ==> rc == -1 && Held() == old(Held()) && !open && steps == old(steps)
      ensures old(open) && read.Data? ==>
                var o := Feed(old(Held()), read.bytes);
                rc == 0 && open && Held() == o.tail && steps == old(steps) + o.steps
      ensures old(open) && (read.Failed? || read.Closed?) ==>
                rc == -1 && !open && !connected && steps == old(steps)
      ensures old(open) && read.WouldBlock? ==>
                && rc == 0 && open && connected == old(connected) && steps == old(steps)
                && Held() == if old(bufLen) == BUF_SIZE then [] else old(Held())
    {
      if !open { return -1; }
      if bufLen >= BUF_SIZE { bufLen := 0; }
      match read
      case WouldBlock => return 0;
      case Failed => connected, open := false, false; return -1;
      case Closed => connected, open := false, false; return -1;
      case Data(bytes) =>
        Receive(bytes);
        Drain(beyond);
        return 0;
    }

    /** Any number of reads, one event each; `beyond` is what lies behind the buffer at each of them. */
    method ProcessAll(chunks: seq<seq<Byte>>, beyond: seq<Byte>)
      requires Valid() && open && |beyond| >= 4
      requires PossibleReads(Held(), chunks) && forall i :: 0 <= i < |chunks| ==> chunks[i] != []
      modifies this`connected, this`inbox, this`steps, this`bufLen, this`open, buf
      ensures Valid() && open
      ensures Held() == FeedAll(old(Held()), chunks).tail
      ensures steps == old(steps) + FeedAll(old(Held()), chunks).steps
    {
      hide Feed, Space, FeedAll, PossibleReads, Calls;
      ghost var whole := FeedAll(Held(), chunks);
      for i := 0 to |chunks|
        invariant Valid() && open && PossibleReads(Held(), chunks[i..])
        invariant FeedAll(Held(), chunks[i..]).tail == whole.tail
        invariant steps + FeedAll(Held(), chunks[i..]).steps == old(steps) + whole.steps
      {
        FeedStep(Held(), chunks[i..], steps);
        assert chunks[i..][0] == chunks[i] && chunks[i..][1..] == chunks[i + 1..];
        var _ := Process(Data(chunks[i]), beyond);
      }
      NothingToFeed(Held(), chunks[|chunks|..], steps);
    }

    /** The socket read: bytes land behind those already held. */
    method Receive(bytes: seq<Byte>)
      requires Valid() && bufLen + |bytes| <= BUF_SIZE
      modifies this`bufLen, buf
      ensures Valid() && Held() == old(Held()) + bytes
    {
      var at := bufLen;
      forall i | 0 <= i < |bytes| {
        buf[at + i] := bytes[i];
      }
      bufLen := at + |bytes|;
      assert buf[..at] == old(buf[..bufLen]);
      assert buf[at..bufLen] == bytes;
    }

    /** mqttc_disconnect. */
    method Disconnect()
      requires Valid()
      modifies this`connected, this`open, this`bufLen
      ensures Valid() && !open && !connected && Held() == [] && steps == old(steps)
    {
      if open {
        open, connected := false, false;
      }
      bufLen := 0;
    }
  }

  /**
   The client object on a whole stream: however the socket cuts it, the callbacks made are those of
   one pass over the stream and the buffer holds its unparsed tail.
   */
  method ReceiveStream(client: Client, chunks: seq<seq<Byte>>, beyond: seq<Byte>)
    requires client.Valid() && client.open && client.Held() == [] && client.steps == [] && |beyond| >= 4
    requires PossibleReads([], chunks) && (forall i :: 0 <= i < |chunks| ==> chunks[i] != [])
    requires FitsBuffer(Concat(chunks))
    modifies client, client.buf
    ensures client.Valid() && client.Held() == Run(Concat(chunks)).tail
    ensures client.inbox == Calls(Run(Concat(chunks)).steps)
  {
    hide Run, Calls, FeedAll;
    ChunkingIsIrrelevant(chunks);
    client.ProcessAll(chunks, beyond);
    assert [] + Run(Concat(chunks)).steps == Run(Concat(chunks)).steps;
  }

  // ── Sending ──

  lemma {:induction false} EncodeStep(n: nat)
    ensures EncodeLength(n) == if n / 128 > 0 then [n % 128 + 128] + EncodeLength(n / 128) else [n % 128]
  {
  }

  /** encode_remaining_length: writes the field at `pos` of the packet buffer. */
  method EncodeRemainingLength(pkt: array<Byte>, pos: nat, n: nat) returns (used: nat)
    requires pos + |EncodeLength(n)| <= pkt.Length
    modifies pkt
    ensures used == |EncodeLength(n)|
    ensures pkt[..pos + used] == old(pkt[..pos]) + EncodeLength(n)
  {
    hide EncodeLength;
    used := 0;
    var len, more := n, true;
    ghost var done := [];
    while more
      invariant used == |done|
      invariant more ==> EncodeLength(n) == done + EncodeLength(len)
      invariant !more ==> EncodeLength(n) == done
      invariant pos + used <= pkt.Length
      invariant pkt[..pos + used] == old(pkt[..pos]) + done
      decreases more, len
    {
      EncodeStep(len);
      ghost var rest := EncodeLength(len);
      var b := len % 128;
      len := len / 128;
      if len > 0 { b := b + 128; }
      pkt[pos + used] := b;
      done := done + [b];
      used := used + 1;
      more := len > 0;
      assert pkt[..pos + used] == pkt[..pos + used - 1] + [b];
      assert rest == if more then [b] + EncodeLength(len) else [b];
    }
  }

  /** The memcpy calls of send_publish: length prefix, topic and payload, one after the other. */
  method Put(pkt: array<Byte>, pos: nat, bytes: seq<Byte>)
    requires pos + |bytes| <= pkt.Length
    modifies pkt
    ensures pkt[..pos + |bytes|] == old(pkt[..pos]) + bytes
  {
    forall i | 0 <= i < |bytes| {
      pkt[pos + i] := bytes[i];
    }
    assert pkt[..pos] == old(pkt[..pos]);
    assert pkt[pos..pos + |bytes|] == bytes;
  }

  datatype Sent = TooLarge | Packet(bytes: seq<Byte>)

  /** send_publish: refuses exactly what is not sendable, and otherwise emits the packet. */
  method SendPublish(topic: seq<Byte>, payload: seq<Byte>) returns (r: Sent)
    ensures Sendable(topic, payload) ==> r == Packet(PublishPacket(topic, payload))
    ensures !Sendable(topic, payload) ==> r == TooLarge
  {
    var remaining := 2 + |topic| + |payload|;
    if remaining + 5 > BUF_SIZE { return TooLarge; }
    RemainingLengthRoundTrip(remaining, []);
    var pkt := new Byte[BUF_SIZE](_ => 0);
    pkt[0] := PUBLISH;
    assert pkt[..1] == [PUBLISH];
    var used := EncodeRemainingLength(pkt, 1, remaining);
    var pos := 1 + used;
    Put(pkt, pos, PublishBody(topic, payload));
    r := Packet(pkt[..pos + remaining]);
  }
}
