/**
 The wire format of src/spud.c and the sending half of src/tube.c, as laid down in
 draft-hildebrand-spud-prototype-02, "Packet layout": a 13-byte header of magic number,
 tube ID and flags, and then CBOR.  The CBOR decoder is a parameter.
 */
module SpudWire {
  import opened Options

  type Byte = bv8
  type Bytes = seq<Byte>

  const MAGIC: Bytes := [0xd8, 0x00, 0x00, 0xd8]
  const ID_SIZE := 8
  const HEADER_SIZE := 13
  const MAX_DATAGRAM := 1500

  type TubeId = s: Bytes | |s| == ID_SIZE witness [0, 0, 0, 0, 0, 0, 0, 0]

  datatype Command = DATA | OPEN | CLOSE | ACK

  const ADEC: Byte := 0x20
  const PDEC: Byte := 0x10
  const COMMAND: Byte := 0xC0
  const RESERVED: Byte := 0x0F

  function Code(cmd: Command): Byte {
    match cmd
    case DATA => 0x00
    case OPEN => 0x40
    case CLOSE => 0x80
    case ACK => 0xC0
  }

  /** `msg.header->flags & SPUD_COMMAND`, by name. */
  function CommandOf(flags: Byte): Command {
    var bits := flags & COMMAND;
    if bits == 0x00 then DATA
    else if bits == 0x40 then OPEN
    else if bits == 0x80 then CLOSE
    else ACK
  }

  function FlagsOf(cmd: Command, adec: bool, pdec: bool): Byte {
    Code(cmd) | (if adec then ADEC else 0) | (if pdec then PDEC else 0)
  }

  function Concat(chunks: seq<Bytes>): Bytes {
    if chunks == [] then [] else Concat(chunks[..|chunks| - 1]) + chunks[|chunks| - 1]
  }

  /** What is on the wire. */
  function Datagram(id: TubeId, cmd: Command, adec: bool, pdec: bool, chunks: seq<Bytes>): Bytes {
    MAGIC + id + [FlagsOf(cmd, adec, pdec)] + Concat(chunks)
  }

  /** `spud_is_spud`. */
  predicate IsSpud(payload: Bytes) {
    |payload| >= HEADER_SIZE && payload[..4] == MAGIC
  }

  datatype Message<C> = Invalid | Message(id: TubeId, flags: Byte, cbor: Option<C>)

  /** `spud_parse` with the CBOR decoder `decode`. */
  function Parse<C>(decode: Bytes -> Option<C>, payload: Bytes): Message<C> {
    if !IsSpud(payload) then Invalid
    else
      var id, flags := payload[4..12], payload[12];
      if |payload| == HEADER_SIZE then Message(id, flags, None)
      else
        var cbor := decode(payload[HEADER_SIZE..]);
        if cbor.None? then Invalid else Message(id, flags, cbor)
  }

  /** The receive buffer holds this much of a datagram. */
  function Received(datagram: Bytes): Bytes {
    if |datagram| <= MAX_DATAGRAM then datagram else datagram[..MAX_DATAGRAM]
  }

  // ---------- laws ----------

  lemma FlagsRoundTrip(cmd: Command, adec: bool, pdec: bool)
    ensures var flags := FlagsOf(cmd, adec, pdec);
            && CommandOf(flags) == cmd
            && (flags & ADEC != 0 <==> adec) && (flags & PDEC != 0 <==> pdec) && flags & RESERVED == 0
  {
    match cmd
    case DATA => if adec { assert FlagsOf(cmd, adec, pdec) == if pdec then 0x30 else 0x20; }
    case OPEN =>
    case CLOSE =>
    case ACK =>
  }

  lemma DatagramParts(id: TubeId, cmd: Command, adec: bool, pdec: bool, chunks: seq<Bytes>)
    ensures var d := Datagram(id, cmd, adec, pdec, chunks);
            && |d| == HEADER_SIZE + |Concat(chunks)| && d[..4] == MAGIC && d[4..12] == id
            && d[12] == FlagsOf(cmd, adec, pdec) && d[HEADER_SIZE..] == Concat(chunks)
  {
  }

  /**
   Whatever is sent is a SPUD packet; the receiver recovers the ID and each flag, and the
   decoder is given exactly the chunks put together, or is not called if they are all empty.
   */
  lemma RoundTrip<C>(decode: Bytes -> Option<C>, id: TubeId, cmd: Command, adec: bool, pdec: bool, chunks: seq<Bytes>)
    ensures var d := Datagram(id, cmd, adec, pdec, chunks);
            var m := Parse(decode, d);
            && IsSpud(d)
            && (m.Invalid? <==> Concat(chunks) != [] && decode(Concat(chunks)).None?)
            && (!m.Invalid? ==>
                  && m.id == id && CommandOf(m.flags) == cmd
                  && (m.flags & ADEC != 0 <==> adec) && (m.flags & PDEC != 0 <==> pdec)
                  && m.cbor == if Concat(chunks) == [] then None else decode(Concat(chunks)))
  {
    DatagramParts(id, cmd, adec, pdec, chunks);
    FlagsRoundTrip(cmd, adec, pdec);
  }

  lemma {:induction false} ConcatAppend(a: seq<Bytes>, b: seq<Bytes>)
    ensures Concat(a + b) == Concat(a) + Concat(b)
    decreases |b|
  {
    if b == [] {
      assert a + b == a;
    } else {
      assert (a + b)[..|a + b| - 1] == a + b[..|b| - 1];
      ConcatAppend(a, b[..|b| - 1]);
    }
  }

  /** The packet byte by byte, in the numbers of the draft. */
  predicate OnWire(d: Bytes, id: TubeId, cmd: Command, adec: bool, pdec: bool, body: Bytes) {
    && |d| == 13 + |body|
    && d[0] == 0xd8 && d[1] == 0x00 && d[2] == 0x00 && d[3] == 0xd8
    && d[4..12] == id
    && d[12] & 0xC0 == (match cmd case DATA => 0x00 case OPEN => 0x40 case CLOSE => 0x80 case ACK => 0xC0)
    && d[12] & 0x20 == (if adec then 0x20 else 0x00)
    && d[12] & 0x10 == (if pdec then 0x10 else 0x00)
    && d[12] & 0x0F == 0x00
    && d[13..] == body
  }

  lemma FlagBits(cmd: Command, adec: bool, pdec: bool)
    ensures var f := FlagsOf(cmd, adec, pdec);
            && f & 0xC0 == (match cmd case DATA => 0x00 case OPEN => 0x40 case CLOSE => 0x80 case ACK => 0xC0)
            && f & 0x20 == (if adec then 0x20 else 0x00)
            && f & 0x10 == (if pdec then 0x10 else 0x00)
            && f & 0x0F == 0x00
  {
  }

  /** What goes out is laid out as the draft says, and the chunks follow one another in order. */
  lemma {:induction false} WireFormat(id: TubeId, cmd: Command, adec: bool, pdec: bool, a: seq<Bytes>, b: seq<Bytes>,
                                      chunk: Bytes)
    ensures OnWire(Datagram(id, cmd, adec, pdec, a), id, cmd, adec, pdec, Concat(a))
    ensures Concat([]) == [] && Concat([chunk]) == chunk && Concat(a + b) == Concat(a) + Concat(b)
  {
    DatagramParts(id, cmd, adec, pdec, a);
    FlagBits(cmd, adec, pdec);
    MagicBytes(Datagram(id, cmd, adec, pdec, a));
    OneChunk(chunk);
    ConcatAppend(a, b);
  }

  lemma MagicBytes(d: Bytes)
    requires |d| >= 4
    ensures d[..4] == MAGIC <==> d[0] == 0xd8 && d[1] == 0x00 && d[2] == 0x00 && d[3] == 0xd8
  {
    assert |d[..4]| == 4 && d[..4][0] == d[0] && d[..4][1] == d[1] && d[..4][2] == d[2] && d[..4][3] == d[3];
  }

  /** Some packet goes out as these bytes. */
  ghost predicate Sendable(payload: Bytes) {
    exists id: TubeId, cmd: Command, adec: bool, pdec: bool, body: Bytes ::
      OnWire(payload, id, cmd, adec, pdec, body)
  }

  /** The packets recognised as SPUD are those that can be sent, and those with reserved bits set beside. */
  lemma SpudIffSendable(payload: Bytes)
    ensures Sendable(payload) <==> IsSpud(payload) && payload[12] & 0x0F == 0x00
  {
    if IsSpud(payload) && payload[12] & 0x0F == 0x00 {
      var id: TubeId, flags, body := payload[4..12], payload[12], payload[13..];
      MagicBytes(payload);
      NamedBits(flags);
      assert OnWire(payload, id, CommandOf(flags), flags & 0x20 == 0x20, flags & 0x10 == 0x10, body);
    }
    if Sendable(payload) {
      MagicBytes(payload);
    }
  }

  lemma NamedBits(f: Byte)
    ensures f & 0xC0 == (match CommandOf(f) case DATA => 0x00 case OPEN => 0x40 case CLOSE => 0x80 case ACK => 0xC0)
    ensures f & 0x20 == (if f & 0x20 == 0x20 then 0x20 else 0x00)
    ensures f & 0x10 == (if f & 0x10 == 0x10 then 0x10 else 0x00)
  {
  }

  /** A packet is its header and what follows. */
  lemma Taken(payload: Bytes)
    requires IsSpud(payload)
    ensures payload == MAGIC + payload[4..12] + [payload[12]] + payload[HEADER_SIZE..]
  {
  }

  lemma {:induction false} OneChunk(body: Bytes)
    ensures Concat([body]) == body
  {
    assert [body][..0] == [];
  }

  /** The other way round: what is accepted could have been sent if and only if its reserved bits are 0. */
  lemma AcceptedIsSendable(payload: Bytes)
    requires IsSpud(payload)
    ensures var id: TubeId, flags, body := payload[4..12], payload[12], payload[HEADER_SIZE..];
            (Datagram(id, CommandOf(flags), flags & ADEC != 0, flags & PDEC != 0, [body]) == payload)
            <==> flags & RESERVED == 0
  {
    var id: TubeId, flags, body := payload[4..12], payload[12], payload[HEADER_SIZE..];
    RebuiltFlags(flags);
    OneChunk(body);
    Taken(payload);
    var rebuilt := FlagsOf(CommandOf(flags), flags & ADEC != 0, flags & PDEC != 0);
    DatagramParts(id, CommandOf(flags), flags & ADEC != 0, flags & PDEC != 0, [body]);
    if rebuilt != flags {
      assert (MAGIC + id + [rebuilt] + body)[12] != payload[12];
    }
  }

  lemma RebuiltFlags(flags: Byte)
    ensures FlagsOf(CommandOf(flags), flags & ADEC != 0, flags & PDEC != 0) == flags <==> flags & RESERVED == 0
  {
  }

  /** The receive buffer loses nothing exactly if header and body fit into it. */
  lemma ReceivedWholeIff(id: TubeId, cmd: Command, adec: bool, pdec: bool, chunks: seq<Bytes>)
    ensures var d := Datagram(id, cmd, adec, pdec, chunks);
            && IsSpud(Received(d)) && Received(d)[..HEADER_SIZE] == d[..HEADER_SIZE]
            && (Received(d)[HEADER_SIZE..] == Concat(chunks) <==> |Concat(chunks)| <= 1487)
            && |Received(d)| <= 1500
  {
    var d := Datagram(id, cmd, adec, pdec, chunks);
    DatagramParts(id, cmd, adec, pdec, chunks);
    if |d| > MAX_DATAGRAM {
      assert Received(d)[..4] == d[..4];
      assert |Received(d)[HEADER_SIZE..]| == MAX_DATAGRAM - HEADER_SIZE;
    }
  }

  // ---------- the code that writes the packet ----------

  class Header {
    var magic: Bytes
    var tubeId: TubeId
    var flags: Byte

    /** `spud_init` with a given ID. */
    method Init(id: TubeId)
      modifies this
      ensures magic == [0xd8, 0x00, 0x00, 0xd8] && flags == 0x00 && tubeId == id
    {
      magic := MAGIC;
      flags := 0;
      tubeId := id;
    }

    function Image(): Bytes
      reads this
    {
      magic + tubeId + [flags]
    }
  }

  lemma {:induction false} ConcatMore(vectors: seq<Bytes>, more: Bytes)
    ensures Concat(vectors + [more]) == Concat(vectors) + more
  {
    assert (vectors + [more])[..|vectors|] == vectors;
  }

  /** The header of a packet is filled in. */
  method FillHeader(id: TubeId, cmd: Command, adec: bool, pdec: bool) returns (image: Bytes)
    ensures image == MAGIC + id + [FlagsOf(cmd, adec, pdec)]
  {
    var smh := new Header;
    smh.Init(id);
    smh.flags := 0;
    smh.flags := smh.flags | Code(cmd);
    if adec {
      smh.flags := smh.flags | ADEC;
    }
    if pdec {
      smh.flags := smh.flags | PDEC;
    }
    image := smh.Image();
  }

  /** Chunks without bytes get no vector. */
  method AddVector(iov: array<Bytes>, count: nat, chunk: Bytes) returns (next: nat)
    requires count < iov.Length
    modifies iov
    ensures count <= next <= count + 1 && Concat(iov[..next]) == Concat(old(iov[..count])) + chunk
  {
    if |chunk| == 0 {
      return count;
    }
    ConcatMore(iov[..count], chunk);
    iov[count] := chunk;
    next := count + 1;
    assert iov[..next] == old(iov[..count]) + [chunk];
  }

  lemma {:induction false} ConcatTake(data: seq<Bytes>, i: nat)
    requires i < |data|
    ensures Concat(data[..i + 1]) == Concat(data[..i]) + data[i]
  {
    ConcatMore(data[..i], data[i]);
    assert data[..i + 1] == data[..i] + [data[i]];
  }

  /** `tube_send`: the header and the chunks that are not empty are gathered. */
  method Send(id: TubeId, cmd: Command, adec: bool, pdec: bool, data: seq<Bytes>) returns (datagram: Bytes)
    ensures datagram == Datagram(id, cmd, adec, pdec, data)
    ensures OnWire(datagram, id, cmd, adec, pdec, Concat(data))
  {
    var smh := FillHeader(id, cmd, adec, pdec);
    var num := |data|;
    var iov := new Bytes[num + 1](_ => []);
    var count := AddVector(iov, 0, smh);
    var i := 0;
    while i < num
      invariant 0 <= i <= num && count <= i + 1
      invariant Concat(iov[..count]) == smh + Concat(data[..i])
    {
      count := AddVector(iov, count, data[i]);
      ConcatTake(data, i);
      i := i + 1;
    }
    assert data[..num] == data;
    datagram := Concat(iov[..count]);
    WireFormat(id, cmd, adec, pdec, data, [], []);
  }
}
