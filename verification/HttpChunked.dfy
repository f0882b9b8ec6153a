/**
 The chunked transfer coding as read_response decodes it: strtoul for the size,
 strstr for the end of the size line, and a loop that copies chunk after chunk.
 */
module HttpChunked {
  import opened Bytes
  import opened Common

  const CR: Byte := 13
  const LF: Byte := 10
  const CRLF: seq<Byte> := [13, 10]
  /** Largest unsigned long of the 64-bit targets; strtoul saturates there. */
  const ULONG_MAX: nat := 0xFFFF_FFFF_FFFF_FFFF

  // ── strtoul(p, NULL, 16) on a NUL-terminated buffer ──

  predicate IsSpace(b: Byte) { b == 32 || 9 <= b <= 13 }

  predicate IsHex(b: Byte) { 48 <= b <= 57 || 65 <= b <= 70 || 97 <= b <= 102 }

  function HexDigit(b: Byte): nat
    requires IsHex(b)
  {
    if b <= 57 then b - 48 else if b <= 70 then b - 55 else b - 87
  }

  /** Value of the hexadecimal digits at the front of `s`, continuing from `acc`. */
  function HexValue(s: seq<Byte>, acc: nat): nat {
    if s == [] || !IsHex(s[0]) then acc else HexValue(s[1..], 16 * acc + HexDigit(s[0]))
  }

  function SkipSpace(s: seq<Byte>): seq<Byte> {
    if s != [] && IsSpace(s[0]) then SkipSpace(s[1..]) else s
  }

  function SkipPrefix(s: seq<Byte>): seq<Byte> {
    if |s| >= 3 && s[0] == 48 && (s[1] == 120 || s[1] == 88) && IsHex(s[2]) then s[2..] else s
  }

  function Strtoul(s: seq<Byte>): nat {
    var t := SkipSpace(s);
    var minus := t != [] && t[0] == 45;
    var u := if t != [] && (t[0] == 43 || t[0] == 45) then t[1..] else t;
    var v := HexValue(SkipPrefix(u), 0);
    if v > ULONG_MAX then ULONG_MAX
    else if minus && v > 0 then ULONG_MAX + 1 - v
    else v
  }

  /** strstr(p, "\r\n"): never looks past a NUL. */
  function FindCrlf(s: seq<Byte>): (r: Option<nat>)
    ensures r.Some? ==> r.value + 2 <= |s|
  {
    if |s| < 2 || s[0] == 0 then None
    else if s[0] == CR && s[1] == LF then Some(0)
    else
      match FindCrlf(s[1..])
      case None => None
      case Some(i) => Some(i + 1)
  }

  // ── Decoding ──

  /** What follows a chunk: its CRLF is skipped if it is there. */
  function SkipCrlf(s: seq<Byte>): (r: seq<Byte>)
    ensures |r| <= |s|
  {
    if |s| >= 2 && s[0] == CR && s[1] == LF then s[2..] else s
  }

  function Taken(size: nat, rest: seq<Byte>): (n: nat)
    ensures n <= |rest|
  {
    if size < |rest| then size else |rest|
  }

  function Dechunk(s: seq<Byte>): seq<Byte>
    decreases |s|
  {
    var size := Strtoul(s);
    var line := FindCrlf(s);
    if s == [] || size == 0 || line.None? then []
    else
      var rest := s[line.value + 2..];
      var n := Taken(size, rest);
      rest[..n] + Dechunk(SkipCrlf(rest[n..]))
  }

  /** One round of the decoding loop, on a stream that starts with a size line. */
  lemma {:induction false} DechunkStep(s: seq<Byte>, eol: nat, size: nat)
    requires s != [] && FindCrlf(s) == Some(eol) && Strtoul(s) == size > 0
    ensures var rest := s[eol + 2..];
            Dechunk(s) == rest[..Taken(size, rest)] + Dechunk(SkipCrlf(rest[Taken(size, rest)..]))
  {
    hide Strtoul, FindCrlf, Taken, SkipCrlf;
  }

  /**
   The loop of read_response; the read pointer is the part of the raw data still
   ahead of it. The body buffer is as large as the raw data, and that is enough.
   */
  method DechunkBody(raw: seq<Byte>) returns (body: array<Byte>, bodyLen: nat)
    ensures bodyLen <= |raw| && body.Length == |raw| + 1
    ensures body[..bodyLen] == Dechunk(raw)
  {
    hide Strtoul, FindCrlf, Dechunk;
    body := new Byte[|raw| + 1](_ => 0);
    bodyLen := 0;
    var rp := raw;
    while rp != []
      invariant bodyLen + |rp| <= |raw| && body.Length == |raw| + 1
      invariant Dechunk(raw) == body[..bodyLen] + Dechunk(rp)
      decreases |rp|
    {
      var size := Strtoul(rp);
      if size == 0 { break; }
      var nl := FindCrlf(rp);
      if nl.None? { break; }
      rp, bodyLen := CopyChunk(rp, size, nl.value, body, bodyLen);
    }
    DechunkStops(rp);
    assert body[..bodyLen] + [] == body[..bodyLen];
  }

  /** One round of the loop: skips the size line, copies what is there, skips the CRLF. */
  method CopyChunk(at: seq<Byte>, size: nat, eol: nat, body: array<Byte>, bodyLen: nat)
    returns (rp: seq<Byte>, newLen: nat)
    requires at != [] && FindCrlf(at) == Some(eol) && Strtoul(at) == size > 0
    requires bodyLen + |at| <= body.Length
    modifies body
    ensures |rp| < |at| && bodyLen <= newLen && newLen + |rp| <= bodyLen + |at|
    ensures body[..newLen] + Dechunk(rp) == old(body[..bodyLen]) + Dechunk(at)
  {
    hide Strtoul, FindCrlf, Dechunk, Taken, SkipCrlf;
    DechunkStep(at, eol, size);
    rp := at[eol + 2..];
    var toCopy := Taken(size, rp);
    var data := rp[..toCopy];
    ghost var done := body[..bodyLen];
    Append(body, bodyLen, data);
    newLen := bodyLen + toCopy;
    rp := SkipCrlf(rp[toCopy..]);
    AppendAssociates(done, data, Dechunk(rp));
  }

  lemma {:induction false} AppendAssociates(a: seq<Byte>, b: seq<Byte>, c: seq<Byte>)
    ensures a + (b + c) == (a + b) + c
  {
  }

  method Append(body: array<Byte>, at: nat, data: seq<Byte>)
    requires at + |data| <= body.Length
    modifies body
    ensures body[..at + |data|] == old(body[..at]) + data
  {
    forall i | 0 <= i < |data| {
      body[at + i] := data[i];
    }
    assert body[..at] == old(body[..at]);
    assert body[at..at + |data|] == data;
  }

  lemma {:induction false} DechunkStops(s: seq<Byte>)
    requires s == [] || Strtoul(s) == 0 || FindCrlf(s).None?
    ensures Dechunk(s) == []
  {
  }

  // ── Encoding (section 7.1 of RFC 9112) ──

  /** A chunk as it may appear on the wire: any spelling of its size, any extension, any data. */
  datatype Chunk = Chunk(size: seq<Byte>, extension: seq<Byte>, data: seq<Byte>) {
    predicate Valid() {
      && data != [] && |data| <= ULONG_MAX
      && (forall i :: 0 <= i < |size| ==> IsHex(size[i]))
      && HexValue(size, 0) == |data|
      && CR !in extension && 0 !in extension
      && (extension != [] ==> !IsHex(extension[0]))
    }

    function Line(): seq<Byte> { size + extension + CRLF }

    function Wire(): seq<Byte> { Line() + data + CRLF }
  }

  function Wire(chunks: seq<Chunk>): seq<Byte> {
    if chunks == [] then [] else chunks[0].Wire() + Wire(chunks[1..])
  }

  function Content(chunks: seq<Chunk>): seq<Byte> {
    if chunks == [] then [] else chunks[0].data + Content(chunks[1..])
  }

  predicate AllValid(chunks: seq<Chunk>) {
    forall i :: 0 <= i < |chunks| ==> chunks[i].Valid()
  }

  // ── Reading a size line back ──

  lemma {:induction false} HexValueStops(digits: seq<Byte>, t: seq<Byte>, acc: nat)
    requires forall i :: 0 <= i < |digits| ==> IsHex(digits[i])
    requires t == [] || !IsHex(t[0])
    ensures HexValue(digits + t, acc) == HexValue(digits, acc)
  {
    if digits == [] {
      assert digits + t == t;
    } else {
      assert (digits + t)[1..] == digits[1..] + t;
      HexValueStops(digits[1..], t, 16 * acc + HexDigit(digits[0]));
    }
  }

  /** The size is read back from its line, cut anywhere after the digits, whatever follows. */
  lemma {:induction false} SizeIsRead(c: Chunk, t: seq<Byte>)
    requires c.Valid() && (t == [] || !IsHex(t[0]))
    ensures Strtoul(c.size + t) == |c.data|
  {
    var s := c.size + t;
    assert c.size != [];
    assert IsHex(s[0]) && s[0] == c.size[0];
    HexValueStops(c.size, t, 0);
    assert SkipSpace(s) == s;
    assert |c.size| >= 2 ==> s[1] == c.size[1] && IsHex(c.size[1]);
    assert |c.size| == 1 ==> c.size[1..] == [] && HexValue(c.size, 0) == HexDigit(s[0]);
    assert SkipPrefix(s) == s;
  }

  /** No CRLF before the one that ends the line. */
  lemma {:induction false} LineEndIsFound(text: seq<Byte>, t: seq<Byte>)
    requires CR !in text && 0 !in text
    ensures FindCrlf(text + CRLF + t) == Some(|text|)
  {
    var s := text + CRLF + t;
    if text == [] {
    } else {
      assert s[0] == text[0] && s[0] in text;
      assert s[1..] == text[1..] + CRLF + t;
      LineEndIsFound(text[1..], t);
    }
  }

  /** A line that is cut short has no end yet. */
  lemma {:induction false} CutLineHasNoEnd(text: seq<Byte>, k: nat)
    requires CR !in text && k < |text| + 2
    ensures FindCrlf((text + CRLF)[..k]).None?
  {
    var s := (text + CRLF)[..k];
    if |s| >= 2 && text != [] {
      assert s[0] == text[0] && s[0] in text;
      assert s[1..] == (text[1..] + CRLF)[..k - 1];
      CutLineHasNoEnd(text[1..], k - 1);
    }
  }

  lemma {:induction false} LineText(c: Chunk)
    requires c.Valid()
    ensures CR !in c.size + c.extension && 0 !in c.size + c.extension
    ensures c.Line() == (c.size + c.extension) + CRLF
  {
    forall b | b in c.size
      ensures b != CR && b != 0
    {
      var i :| 0 <= i < |c.size| && c.size[i] == b;
      assert IsHex(c.size[i]);
    }
  }

  /** After a complete size line the decoder takes the announced number of bytes, or all there are. */
  lemma {:induction false} ChunkIsTaken(c: Chunk, t: seq<Byte>)
    requires c.Valid()
    ensures var n := Taken(|c.data|, t);
            Dechunk(c.Line() + t) == t[..n] + Dechunk(SkipCrlf(t[n..]))
  {
    hide Strtoul, FindCrlf, Dechunk;
    var s := c.Line() + t;
    LineText(c);
    LineEndIsFound(c.size + c.extension, t);
    assert s == c.size + (c.extension + CRLF + t);
    SizeIsRead(c, c.extension + CRLF + t);
    DechunkStep(s, |c.size + c.extension|, |c.data|);
    assert s[|c.size + c.extension| + 2..] == t;
  }

  lemma {:induction false} WholeChunkIsTaken(c: Chunk, t: seq<Byte>)
    requires c.Valid()
    ensures Dechunk(c.Wire() + t) == c.data + Dechunk(t)
  {
    hide Dechunk;
    var rest := c.data + CRLF + t;
    assert c.Wire() + t == c.Line() + rest;
    ChunkIsTaken(c, rest);
    assert rest[..|c.data|] == c.data;
    assert rest[|c.data|..] == CRLF + t;
    assert SkipCrlf(CRLF + t) == t;
  }

  // ── Main results ──

  /**
   Dechunking inverts chunking: every list of nonempty chunks with arbitrary
   bytes, followed by anything whose size reads as zero (the last chunk, or
   the end of the connection), decodes to the concatenation of its data.
   */
  lemma {:induction false} DechunkInvertsChunking(chunks: seq<Chunk>, last: seq<Byte>)
    requires AllValid(chunks) && (last == [] || Strtoul(last) == 0)
    ensures Dechunk(Wire(chunks) + last) == Content(chunks)
    decreases |chunks|
  {
    hide Strtoul, Dechunk;
    if chunks == [] {
      assert Wire(chunks) + last == last;
      DechunkStops(last);
    } else {
      var rest := Wire(chunks[1..]) + last;
      assert Wire(chunks) + last == chunks[0].Wire() + rest;
      WholeChunkIsTaken(chunks[0], rest);
      DechunkInvertsChunking(chunks[1..], last);
    }
  }

  /** A transfer cut anywhere inside the chunks decodes to a prefix of the content: nothing is invented or reordered. */
  lemma {:induction false} CutTransferGivesPrefix(chunks: seq<Chunk>, k: nat)
    requires AllValid(chunks) && k <= |Wire(chunks)|
    ensures Dechunk(Wire(chunks)[..k]) <= Content(chunks)
    decreases |chunks|
  {
    hide Strtoul, FindCrlf, Dechunk;
    if chunks == [] {
      DechunkStops(Wire(chunks)[..k]);
    } else {
      var c, s := chunks[0], Wire(chunks)[..k];
      var n := |c.Wire()|;
      if k >= n {
        assert s == c.Wire() + Wire(chunks[1..])[..k - n];
        WholeChunkIsTaken(c, Wire(chunks[1..])[..k - n]);
        CutTransferGivesPrefix(chunks[1..], k - n);
      } else {
        assert s == c.Wire()[..k];
        CutChunkGivesPrefix(c, k);
      }
    }
  }

  lemma {:induction false} CutChunkGivesPrefix(c: Chunk, k: nat)
    requires c.Valid() && k < |c.Wire()|
    ensures Dechunk(c.Wire()[..k]) <= c.data
  {
    hide Strtoul, FindCrlf, Dechunk;
    var s, line := c.Wire()[..k], c.Line();
    if k < |line| {
      LineText(c);
      assert s == line[..k];
      CutLineHasNoEnd(c.size + c.extension, k);
      DechunkStops(s);
    } else {
      var t := (c.data + CRLF)[..k - |line|];
      assert c.Wire() == line + (c.data + CRLF);
      assert s == line + t;
      ChunkIsTaken(c, t);
      var n := Taken(|c.data|, t);
      assert t[..n] == c.data[..n];
      var after := t[n..];
      if |t| > |c.data| {
        assert |after| == 1 && after[0] == t[n] == CR;
        assert after == [CR];
      }
      assert SkipCrlf(after) == after;
      NothingInLoneCr(after);
    }
  }

  lemma {:induction false} NothingInLoneCr(s: seq<Byte>)
    requires s == [] || s == [CR]
    ensures Dechunk(s) == []
  {
    if s != [] {
      assert SkipSpace(s) == SkipSpace(s[1..]);
    }
  }

  /** On any raw input the decoded data is no longer than the input. */
  lemma {:induction false} DecodedIsNoLonger(s: seq<Byte>)
    ensures |Dechunk(s)| <= |s|
    decreases |s|
  {
    hide Strtoul, FindCrlf, Dechunk;
    var size, line := Strtoul(s), FindCrlf(s);
    if s == [] || size == 0 || line.None? {
      DechunkStops(s);
    } else {
      DechunkStep(s, line.value, size);
      var rest := s[line.value + 2..];
      DecodedIsNoLonger(SkipCrlf(rest[Taken(size, rest)..]));
    }
  }

  // ── The usual spelling of sizes and of the last chunk ──

  function HexOf(n: nat): seq<Byte> {
    var d := n % 16;
    var digit: Byte := if d < 10 then 48 + d else 87 + d;
    if n < 16 then [digit] else HexOf(n / 16) + [digit]
  }

  lemma {:induction false} HexValueSnoc(s: seq<Byte>, d: Byte, acc: nat)
    requires (forall i :: 0 <= i < |s| ==> IsHex(s[i])) && IsHex(d)
    ensures HexValue(s + [d], acc) == 16 * HexValue(s, acc) + HexDigit(d)
  {
    if s == [] {
      assert s + [d] == [d];
      assert [d][1..] == [];
    } else {
      assert (s + [d])[1..] == s[1..] + [d];
      HexValueSnoc(s[1..], d, 16 * acc + HexDigit(s[0]));
    }
  }

  lemma {:induction false} HexRoundTrip(n: nat)
    ensures HexOf(n) != [] && forall i :: 0 <= i < |HexOf(n)| ==> IsHex(HexOf(n)[i])
    ensures HexValue(HexOf(n), 0) == n
  {
    var d := n % 16;
    var digit: Byte := if d < 10 then 48 + d else 87 + d;
    if n < 16 {
      assert [digit][1..] == [];
    } else {
      HexRoundTrip(n / 16);
      HexValueSnoc(HexOf(n / 16), digit, 0);
    }
  }

  /** Every nonempty piece of data has a valid chunk. */
  function ChunkOf(data: seq<Byte>): (c: Chunk)
    requires 0 < |data| <= ULONG_MAX
    ensures c.Valid() && c.data == data
  {
    HexRoundTrip(|data|);
    Chunk(HexOf(|data|), [], data)
  }

  ghost predicate Zeros(s: seq<Byte>) { s != [] && forall i :: 0 <= i < |s| ==> s[i] == 48 }

  lemma {:induction false} ZerosAreZero(zeros: seq<Byte>)
    requires forall i :: 0 <= i < |zeros| ==> zeros[i] == 48
    ensures HexValue(zeros, 0) == 0
  {
    if zeros == [] {
    } else {
      ZerosAreZero(zeros[1..]);
    }
  }

  /** Any number of zeros, an optional extension and anything after it ends the body. */
  lemma {:induction false} LastChunkReadsAsZero(zeros: seq<Byte>, t: seq<Byte>)
    requires Zeros(zeros) && (t == [] || (!IsHex(t[0]) && t[0] != 120 && t[0] != 88))
    ensures Strtoul(zeros + t) == 0
  {
    var s := zeros + t;
    assert s[0] == 48;
    assert |s| >= 2 ==> s[1] == if |zeros| > 1 then 48 else t[0];
    assert SkipSpace(s) == s && SkipPrefix(s) == s;
    HexValueStops(zeros, t, 0);
    ZerosAreZero(zeros);
  }

  // ── Whole bodies ──

  ghost predicate Sendable(datas: seq<seq<Byte>>) { forall i :: 0 <= i < |datas| ==> 0 < |datas[i]| <= ULONG_MAX }

  /** Each piece as a chunk with its size in lower-case hexadecimal. */
  function ChunksOf(datas: seq<seq<Byte>>): (cs: seq<Chunk>)
    requires Sendable(datas)
    ensures AllValid(cs)
  {
    if datas == [] then [] else [ChunkOf(datas[0])] + ChunksOf(datas[1..])
  }

  function Joined(datas: seq<seq<Byte>>): seq<Byte> { if datas == [] then [] else datas[0] + Joined(datas[1..]) }

  lemma {:induction false} ContentOfChunks(datas: seq<seq<Byte>>)
    requires Sendable(datas)
    ensures Content(ChunksOf(datas)) == Joined(datas)
    decreases |datas|
  {
    if datas == [] {
    } else {
      ContentOfChunks(datas[1..]);
      assert ChunksOf(datas)[1..] == ChunksOf(datas[1..]);
    }
  }

  /** Any data cut into any nonempty pieces, sent chunked and ended by a last chunk and a blank line, arrives joined. */
  lemma {:induction false} BodyArrives(datas: seq<seq<Byte>>, zeros: seq<Byte>)
    requires Sendable(datas) && Zeros(zeros)
    ensures Dechunk(Wire(ChunksOf(datas)) + (zeros + CRLF + CRLF)) == Joined(datas)
  {
    hide Dechunk, Wire, Content, Strtoul;
    assert zeros + CRLF + CRLF == zeros + (CRLF + CRLF);
    LastChunkReadsAsZero(zeros, CRLF + CRLF);
    DechunkInvertsChunking(ChunksOf(datas), zeros + CRLF + CRLF);
    ContentOfChunks(datas);
  }
}
