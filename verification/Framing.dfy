/**
  Message framing over a byte stream: `frame` and `parse_header` of src/net/Protocol.cpp and the
  transfer loops of src/net/Socket.cpp.  The operating system may accept and deliver bytes in pieces
  of any size and may interrupt a call; a script of such outcomes stands for it.
 */
module Framing {
  import opened Tasks
  import opened Wire

  const MAGIC: nat := 0x48594452

  const HEADER_SIZE: nat := 12

  const MAX_PAYLOAD: nat := 64 * 1024 * 1024

  datatype Message = Message(msgType: u16, payload: Bytes)

  // ---------------------------------------------------------------- frames

  function Header(msgType: u16, len: nat): (h: Bytes)
    ensures |h| == HEADER_SIZE
  {
    LE(MAGIC, 4) + LE(msgType, 2) + LE(0, 2) + LE(len, 4)
  }

  function FrameOf(m: Message): Bytes {
    Header(m.msgType, |m.payload|) + m.payload
  }

  function Frames(ms: seq<Message>): Bytes {
    if ms == [] then [] else FrameOf(ms[0]) + Frames(ms[1..])
  }

  predicate HeaderOk(h: Bytes) {
    |h| >= HEADER_SIZE && UnLE(h[..4]) == MAGIC && UnLE(h[8..12]) <= MAX_PAYLOAD
  }

  /** The first message of a stream and what follows it; None if the stream does not start with a whole one. */
  function FirstMessage(s: Bytes): Option<(Message, Bytes)> {
    if !HeaderOk(s) || |s| - HEADER_SIZE < UnLE(s[8..12]) then None
    else
      TypeFits(s);
      var end := HEADER_SIZE + UnLE(s[8..12]);
      Some((Message(UnLE(s[4..6]), s[HEADER_SIZE..end]), s[end..]))
  }

  lemma TypeFits(s: Bytes)
    requires |s| >= HEADER_SIZE
    ensures UnLE(s[4..6]) < 0x1_0000
  {
    assert Pow256(2) == 0x1_0000;
  }

  lemma HeaderFields(msgType: u16, len: nat, rest: Bytes)
    ensures var s := Header(msgType, len) + rest;
            && s[..4] == LE(MAGIC, 4) && s[4..6] == LE(msgType, 2) && s[6..8] == LE(0, 2) && s[8..12] == LE(len, 4)
            && s[12..] == rest
  {
    hide LE;
    var s := Header(msgType, len) + rest;
    assert s[..4] == LE(MAGIC, 4);
    assert s[4..6] == LE(msgType, 2);
    assert s[6..8] == LE(0, 2);
    assert s[8..12] == LE(len, 4);
    assert s[12..] == rest;
  }

  /** A frame is read back whole, whatever follows it, exactly when its payload is within the limit. */
  lemma FrameRoundTrip(m: Message, rest: Bytes)
    ensures FirstMessage(FrameOf(m) + rest) == Some((m, rest)) <==> |m.payload| <= MAX_PAYLOAD
  {
    var s := FrameOf(m) + rest;
    assert s == Header(m.msgType, |m.payload|) + (m.payload + rest);
    HeaderFields(m.msgType, |m.payload|, m.payload + rest);
    Widths();
    UnLEofLE(MAGIC, 4);
    UnLEofLE(m.msgType, 2);
    hide UnLE, LE, Pow256, Header, FrameOf;
    if |m.payload| <= MAX_PAYLOAD {
      UnLEofLE(|m.payload|, 4);
      var end := HEADER_SIZE + |m.payload|;
      assert s[12..][..|m.payload|] == m.payload && s[12..][|m.payload|..] == rest;
      assert s[12..end] == s[12..][..|m.payload|] && s[end..] == s[12..][|m.payload|..];
    }
  }

  lemma FirstMessageParts(s: Bytes)
    requires FirstMessage(s).Some?
    ensures var (m, rest) := FirstMessage(s).value;
            && |s| >= 12 && s[..4] == LE(MAGIC, 4) && s[4..6] == LE(m.msgType, 2) && s[8..12] == LE(|m.payload|, 4)
            && s[12..] == m.payload + rest
  {
    LEofUnLE(s[..4]);
    LEofUnLE(s[4..6]);
    LEofUnLE(s[8..12]);
    hide UnLE, LE, Pow256;
    var end := HEADER_SIZE + UnLE(s[8..12]);
    assert s[12..] == s[12..end] + s[end..];
  }

  /** What `recv_msg` accepts is the frame of what it returns, except that the reserved field is not looked at. */
  lemma FrameCanonical(s: Bytes)
    requires FirstMessage(s).Some?
    ensures var (m, rest) := FirstMessage(s).value;
            s == FrameOf(m) + rest <==> s[6] == 0 && s[7] == 0
  {
    FirstMessageParts(s);
    var (m, rest) := FirstMessage(s).value;
    HeaderFields(m.msgType, |m.payload|, m.payload + rest);
    assert LE(0, 2) == [0, 0];
    hide UnLE, LE, Pow256, FirstMessage;
    var t := Header(m.msgType, |m.payload|) + (m.payload + rest);
    assert t == FrameOf(m) + rest;
    assert t[6] == t[6..8][0] && t[7] == t[6..8][1];
    if s[6] == 0 && s[7] == 0 {
      assert s[6..8] == [0, 0];
      SamePieces(s, t);
    }
  }

  /** Two byte strings that differ only in the reserved field yield the same message. */
  lemma ReservedIgnored(m: Message, x: byte, y: byte)
    requires |m.payload| <= MAX_PAYLOAD
    ensures FirstMessage(FrameOf(m)[6 := x][7 := y]) == FirstMessage(FrameOf(m)) == Some((m, []))
  {
    var f, g := FrameOf(m), FrameOf(m)[6 := x][7 := y];
    FrameRoundTrip(m, []);
    hide LE, UnLE, Header;
    assert f + [] == f;
    assert g[..4] == f[..4] && g[4..6] == f[4..6] && g[8..12] == f[8..12];
    assert g[12..] == f[12..];
    hide FrameOf;
    var end := HEADER_SIZE + UnLE(f[8..12]);
    assert g[12..end] == f[12..end] && g[end..] == f[end..];
  }

  lemma SamePieces(s: Bytes, t: Bytes)
    requires |s| >= 12 && |t| >= 12
    requires s[..4] == t[..4] && s[4..6] == t[4..6] && s[6..8] == t[6..8] && s[8..12] == t[8..12] && s[12..] == t[12..]
    ensures s == t
  {
    assert s == s[..4] + s[4..6] + s[6..8] + s[8..12] + s[12..];
    assert t == t[..4] + t[4..6] + t[6..8] + t[8..12] + t[12..];
  }

  /** The stream starts with a header for `m`, each field at its offset, and goes on with its payload and `rest`. */
  ghost predicate HoldsMessage(s: Bytes, m: Message, rest: Bytes) {
    && NumAt(s, 0, 4, 0x48594452) && NumAt(s, 4, 2, m.msgType) && NumAt(s, 8, 4, |m.payload|)
    && |s| == 12 + |m.payload| + |rest| && PartAt(s, 12, m.payload) && PartAt(s, 12 + |m.payload|, rest)
  }

  /** A message is received from exactly the streams with this layout whose payload is at most 64 MiB. */
  lemma MessageLayoutIff(s: Bytes, m: Message, rest: Bytes)
    ensures FirstMessage(s) == Some((m, rest)) <==> HoldsMessage(s, m, rest) && |m.payload| <= 67_108_864
  {
    Widths();
    NumPart(s, 0, 4, MAGIC);
    NumPart(s, 4, 2, m.msgType);
    NumPart(s, 8, 4, |m.payload|);
    if FirstMessage(s) == Some((m, rest)) {
      FirstMessageParts(s);
      hide LE, UnLE, Pow256, FirstMessage, NumAt;
      PartAppend(s, 12, m.payload, rest);
    }
    if HoldsMessage(s, m, rest) && |m.payload| <= 67_108_864 {
      UnLEofLE(MAGIC, 4);
      UnLEofLE(m.msgType, 2);
      UnLEofLE(|m.payload|, 4);
      hide LE, UnLE, Pow256, NumAt;
      assert s[12..12 + |m.payload|] == m.payload && s[12 + |m.payload|..] == rest;
    }
  }

  /** A frame has this layout, with two zero bytes where the reserved field is. */
  lemma FrameLayout(m: Message)
    requires |m.payload| < 0x1_0000_0000
    ensures HoldsMessage(FrameOf(m), m, []) && NumAt(FrameOf(m), 6, 2, 0)
  {
    var f := FrameOf(m);
    Widths();
    HeaderFields(m.msgType, |m.payload|, m.payload);
    NumPart(f, 0, 4, MAGIC);
    NumPart(f, 4, 2, m.msgType);
    NumPart(f, 6, 2, 0);
    NumPart(f, 8, 4, |m.payload|);
    hide LE, Pow256, NumAt, Header;
  }

  method Frame(msgType: u16, payload: Bytes) returns (framed: Bytes)
    ensures framed == FrameOf(Message(msgType, payload))
  {
    hide LE, Pow256;
    var w := new ByteWriter();
    w.UInt(MAGIC, 4);
    w.UInt(msgType, 2);
    w.UInt(0, 2);
    w.UInt(|payload|, 4);
    w.RawBytes(payload);
    framed := w.buf;
  }

  method ParseHeader(data: Bytes) returns (ok: bool, msgType: u16, len: nat)
    ensures ok <==> HeaderOk(data)
    ensures ok ==> msgType == UnLE(data[4..6]) && len == UnLE(data[8..12])
  {
    if |data| < HEADER_SIZE {
      return false, 0, 0;
    }
    Widths();
    hide UnLE, Pow256;
    assert data[..4] == data[..4] && data[4..][..2] == data[4..6] && data[4..][2..] == data[6..];
    assert data[6..][2..] == data[8..] && data[8..][..4] == data[8..12];
    var r := new ByteReader(data);
    var magic := r.UInt(4);
    if magic != MAGIC {
      return false, 0, 0;
    }
    msgType := r.UInt(2);
    var reserved := r.UInt(2);
    len := r.UInt(4);
    var complete := r.Ok();
    if !complete || len > MAX_PAYLOAD {
      return false, 0, 0;
    }
    ok := true;
  }

  // ---------------------------------------------------------------- receiving

  /** One outcome of `recv`: some bytes, an interrupted call, or a timeout.  After the last the peer has closed. */
  datatype Arrival = Chunk(bytes: Bytes) | Interrupted | TimedOut

  /** The bytes that arrive before the next timeout or the close. */
  function Flow(script: seq<Arrival>): Bytes {
    if script == [] || script[0].TimedOut? then []
    else if script[0].Chunk? then script[0].bytes + Flow(script[1..])
    else Flow(script[1..])
  }

  /** What the operating system still has to report after the next timeout, or nothing once the peer closes. */
  function AfterTimeout(script: seq<Arrival>): seq<Arrival> {
    if script == [] then []
    else if script[0].TimedOut? then script[1..]
    else AfterTimeout(script[1..])
  }

  /** Everything that will still arrive, pauses or not. */
  function Everything(script: seq<Arrival>): Bytes {
    if script == [] then []
    else if script[0].Chunk? then script[0].bytes + Everything(script[1..])
    else Everything(script[1..])
  }

  lemma {:induction false} FlowThenRest(script: seq<Arrival>)
    ensures Everything(script) == Flow(script) + Everything(AfterTimeout(script))
  {
    if script != [] && !script[0].TimedOut? {
      FlowThenRest(script[1..]);
    }
  }

  /** An interrupted `recv` is tried again: wherever it falls, the same bytes arrive. */
  lemma {:induction false} ReceiveInterruptsDoNotMatter(before: seq<Arrival>, after: seq<Arrival>)
    ensures Flow(before + [Interrupted] + after) == Flow(before + after)
  {
    if before == [] {
      assert [] + [Interrupted] + after == [Interrupted] + after;
      assert ([Interrupted] + after)[1..] == after && [] + after == after;
    } else {
      ReceiveInterruptsDoNotMatter(before[1..], after);
      assert (before + [Interrupted] + after)[1..] == before[1..] + [Interrupted] + after;
      assert (before + after)[1..] == before[1..] + after;
    }
  }

  /** A chunk may be cut anywhere: the same bytes arrive. */
  lemma {:induction false} CutsDoNotMatter(before: seq<Arrival>, after: seq<Arrival>, x: Bytes, y: Bytes)
    ensures Flow(before + [Chunk(x), Chunk(y)] + after) == Flow(before + [Chunk(x + y)] + after)
  {
    var two, one := [Chunk(x), Chunk(y)], [Chunk(x + y)];
    if before == [] {
      assert [] + two + after == two + after && [] + one + after == one + after;
      assert (one + after)[1..] == after;
      assert (two + after)[1..] == [Chunk(y)] + after && ([Chunk(y)] + after)[1..] == after;
      assert x + (y + Flow(after)) == x + y + Flow(after);
    } else {
      CutsDoNotMatter(before[1..], after, x, y);
      assert (before + two + after)[1..] == before[1..] + two + after;
      assert (before + one + after)[1..] == before[1..] + one + after;
    }
  }

  /** Up to the first pause everything arrives, and what follows the pause is left. */
  lemma {:induction false} PauseStopsFlow(before: seq<Arrival>, after: seq<Arrival>)
    requires forall a :: a in before ==> !a.TimedOut?
    ensures Flow(before + [TimedOut] + after) == Everything(before)
    ensures AfterTimeout(before + [TimedOut] + after) == after
  {
    if before == [] {
      assert [] + [TimedOut] + after == [TimedOut] + after;
      assert ([TimedOut] + after)[1..] == after;
    } else {
      PauseStopsFlow(before[1..], after);
      assert (before + [TimedOut] + after)[1..] == before[1..] + [TimedOut] + after;
    }
  }

  /**
    A receive that fails at a pause goes on behind it, and what had arrived before is gone.  So nothing
    is lost, and the stream stays on a frame's boundary, exactly when nothing had arrived.
   */
  lemma PauseLosesFlow(script: seq<Arrival>)
    ensures Everything(script) == Flow(script) + Everything(AfterTimeout(script))
    ensures Everything(AfterTimeout(script)) == Everything(script) <==> Flow(script) == []
  {
    FlowThenRest(script);
  }

  /** A frame cut by a pause after its first byte. */
  function CutFrame(m: Message): seq<Arrival> {
    [Chunk(FrameOf(m)[..1]), TimedOut, Chunk(FrameOf(m)[1..])]
  }

  /** All its bytes arrive, but neither before the pause nor after it is there a message. */
  lemma PauseCanLoseMessage(msgType: u16)
    ensures var m := Message(msgType, []);
            && Everything(CutFrame(m)) == FrameOf(m)
            && FirstMessage(Flow(CutFrame(m))).None?
            && FirstMessage(Flow(AfterTimeout(CutFrame(m)))).None? && AfterTimeout(AfterTimeout(CutFrame(m))) == []
  {
    var m := Message(msgType, []);
    var script := CutFrame(m);
    var f := FrameOf(m);
    FrameSize(m);
    hide FrameOf, LE;
    assert script[1..] == [TimedOut, Chunk(f[1..])] && script[1..][1..] == [Chunk(f[1..])];
    assert [Chunk(f[1..])][1..] == [];
    assert Flow([Chunk(f[1..])]) == f[1..] && Everything([Chunk(f[1..])]) == f[1..];
    assert Flow(script[1..]) == [] && AfterTimeout(script[1..]) == [Chunk(f[1..])];
    assert Everything(script[1..]) == f[1..];
    assert Flow(script) == f[..1] && AfterTimeout(script) == [Chunk(f[1..])];
    assert f[..1] + f[1..] == f;
    NothingYet(f[..1]);
    NothingYet(f[1..]);
  }

  lemma FrameSize(m: Message)
    ensures |FrameOf(m)| == HEADER_SIZE + |m.payload|
  {}

  /** Between two pauses whole messages arrive, and after the last of them nothing. */
  ghost predicate Grouped(script: seq<Arrival>, groups: seq<seq<Message>>)
    decreases |groups|
  {
    if groups == [] then script == []
    else Flow(script) == Frames(groups[0]) && Grouped(AfterTimeout(script), groups[1..])
  }

  function Concat(groups: seq<seq<Message>>): seq<Message> {
    if groups == [] then [] else groups[0] + Concat(groups[1..])
  }

  predicate WithinLimit(ms: seq<Message>) {
    forall m :: m in ms ==> |m.payload| <= MAX_PAYLOAD
  }

  predicate AllWithinLimit(groups: seq<seq<Message>>) {
    forall g :: g in groups ==> WithinLimit(g)
  }

  /** What the next group is, and what is left of the groups behind it. */
  lemma NextGroup(script: seq<Arrival>, groups: seq<seq<Message>>, got: seq<Message>)
    requires Grouped(script, groups) && AllWithinLimit(groups)
    ensures var sent := if groups == [] then [] else groups[0];
            var rest := if groups == [] then [] else groups[1..];
            && Flow(script) == Frames(sent) && WithinLimit(sent)
            && Grouped(AfterTimeout(script), rest) && AllWithinLimit(rest)
            && got + Concat(groups) == got + sent + Concat(rest)
  {
    hide FrameOf;
  }

  class Receiver {
    var script: seq<Arrival>

    ghost predicate Valid()
      reads this
    {
      forall i :: 0 <= i < |script| && script[i].Chunk? ==> script[i].bytes != []
    }

    constructor (script: seq<Arrival>)
      requires forall i :: 0 <= i < |script| && script[i].Chunk? ==> script[i].bytes != []
      ensures Valid() && this.script == script
    {
      this.script := script;
    }

    /** `recv`: at most `n` bytes of the first chunk; the rest of that chunk stays. */
    method Recv(n: nat) returns (a: Arrival, closed: bool)
      requires Valid() && n > 0
      modifies this
      ensures Valid() && (closed <==> old(script) == [])
      ensures closed ==> script == []
      ensures !closed && a.Chunk? ==> 0 < |a.bytes| <= n && old(Flow(script)) == a.bytes + Flow(script)
      ensures !closed && a.Interrupted? ==> |script| < |old(script)| && Flow(script) == old(Flow(script))
      ensures !closed && !a.TimedOut? ==> AfterTimeout(script) == old(AfterTimeout(script)) && |script| <= |old(script)|
      ensures !closed && a.TimedOut? ==> old(Flow(script)) == [] && script == old(AfterTimeout(script))
    {
      if script == [] {
        return Interrupted, true;
      }
      a, closed := script[0], false;
      if a.Chunk? && |a.bytes| > n {
        ghost var before := script;
        var first, more := a.bytes[..n], a.bytes[n..];
        script := [Chunk(more)] + script[1..];
        assert script[1..] == before[1..];
        assert a.bytes == first + more;
        a := Chunk(first);
      } else {
        script := script[1..];
      }
    }

    /**
      `recv_all` keeps asking until it has all `n` bytes.  It fails only if the stream pauses or ends
      first, and then whatever had arrived is lost with it.
     */
    method RecvAll(n: nat) returns (ok: bool, data: Bytes)
      requires Valid()
      modifies this
      ensures Valid() && (ok <==> n <= |old(Flow(script))|)
      ensures ok ==> data == old(Flow(script))[..n] && Flow(script) == old(Flow(script))[n..]
      ensures ok ==> AfterTimeout(script) == old(AfterTimeout(script))
      ensures !ok ==> script == old(AfterTimeout(script))
    {
      ghost var all := Flow(script);
      data := [];
      while |data| < n
        invariant Valid() && |data| <= n && all == data + Flow(script)
        invariant AfterTimeout(script) == old(AfterTimeout(script))
        decreases n - |data|, |script|
      {
        var a, closed := Recv(n - |data|);
        if closed {
          return false, data;
        }
        match a
        case Chunk(bytes) => data := data + bytes;
        case Interrupted =>
        case TimedOut => return false, data;
      }
      ok := true;
    }

    /**
      `recv_msg`: a header, then as many bytes as it announces.  A bad header costs the header; a pause
      or a close inside a frame costs the part of the frame that had arrived.
     */
    method RecvMsg() returns (ok: bool, m: Message)
      requires Valid()
      modifies this
      ensures Valid() && (ok <==> FirstMessage(old(Flow(script))).Some?)
      ensures ok ==> FirstMessage(old(Flow(script))) == Some((m, Flow(script)))
      ensures ok ==> AfterTimeout(script) == old(AfterTimeout(script))
      ensures !ok && |old(Flow(script))| >= HEADER_SIZE && !HeaderOk(old(Flow(script))) ==>
                Flow(script) == old(Flow(script))[HEADER_SIZE..]
      ensures !ok && (|old(Flow(script))| < HEADER_SIZE || HeaderOk(old(Flow(script)))) ==>
                script == old(AfterTimeout(script))
    {
      ghost var all := Flow(script);
      m := Message(0, []);
      var header, payload: Bytes, msgType, len;
      ok, header := RecvAll(HEADER_SIZE);
      if !ok {
        return;
      }
      assert header[..4] == all[..4] && header[4..6] == all[4..6] && header[8..12] == all[8..12];
      ok, msgType, len := ParseHeader(header);
      if !ok {
        return;
      }
      payload := [];
      if len > 0 {
        ok, payload := RecvAll(len);
        if !ok {
          return;
        }
      }
      assert all[12..][..len] == all[12..12 + len] && all[12..][len..] == all[12 + len..];
      m := Message(msgType, payload);
    }

    /**
      However the bytes of a list of frames are cut into chunks, and however often a call is
      interrupted, repeated `recv_msg` yields exactly that list, in order, and then reports the pause
      or the close without having lost a byte of it.
     */
    method Drain(ghost sent: seq<Message>) returns (got: seq<Message>)
      requires Valid()
      requires Flow(script) == Frames(sent) && WithinLimit(sent)
      modifies this
      ensures Valid() && got == sent && script == old(AfterTimeout(script))
    {
      got := [];
      var more := true;
      while more
        invariant Valid() && |got| <= |sent| && got == sent[..|got|]
        invariant if more then
                    Flow(script) == Frames(sent[|got|..]) && AfterTimeout(script) == old(AfterTimeout(script))
                  else got == sent && script == old(AfterTimeout(script))
        decreases more, |sent| - |got|
      {
        ghost var rest := sent[|got|..];
        if rest != [] {
          FrameRoundTrip(rest[0], Frames(rest[1..]));
          assert rest[1..] == sent[|got| + 1..];
        } else {
          NothingYet([]);
        }
        var m;
        more, m := RecvMsg();
        if more {
          got := got + [m];
        }
      }
    }

    /**
      The loop of a serving thread, which tries again after every failed receive: if the pauses fall
      between frames, it receives every message of the stream in order by its `patience`-th failure.
     */
    method Serve(patience: nat, ghost groups: seq<seq<Message>>) returns (got: seq<Message>)
      requires Valid() && Grouped(script, groups) && |groups| <= patience
      requires forall g :: g in groups ==> WithinLimit(g)
      modifies this
      ensures got == Concat(groups)
    {
      assert AllWithinLimit(groups);
      hide Valid, WithinLimit, AllWithinLimit, Grouped, Flow, Frames, AfterTimeout;
      got := [];
      ghost var rest := groups;
      for failures := 0 to patience
        invariant Valid() && Grouped(script, rest) && |rest| <= patience - failures
        invariant AllWithinLimit(rest)
        invariant got + Concat(rest) == Concat(groups)
      {
        NextGroup(script, rest, got);
        ghost var sent := if rest == [] then [] else rest[0];
        var more := Drain(sent);
        got := got + more;
        rest := if rest == [] then [] else rest[1..];
      }
    }
  }

  lemma NothingYet(s: Bytes)
    requires |s| < HEADER_SIZE
    ensures FirstMessage(s).None?
  {}

  // ---------------------------------------------------------------- sending

  /** One outcome of `send`: at most this many bytes were taken, or the call was interrupted.  After the last
      it fails. */
  datatype Departure = Taken(limit: nat) | SendInterrupted

  /** How many bytes are taken before `send` fails. */
  function Room(script: seq<Departure>): nat {
    if script == [] || script[0] == Taken(0) then 0
    else (if script[0].Taken? then script[0].limit else 0) + Room(script[1..])
  }

  /** An interrupted `send` is tried again: wherever it falls, what is sent in the end stays the same. */
  lemma {:induction false} SendInterruptsDoNotMatter(before: seq<Departure>, after: seq<Departure>)
    ensures Room(before + [SendInterrupted] + after) == Room(before + after)
  {
    if before == [] {
      assert [] + [SendInterrupted] + after == [SendInterrupted] + after;
      assert ([SendInterrupted] + after)[1..] == after && [] + after == after;
    } else {
      SendInterruptsDoNotMatter(before[1..], after);
      assert (before + [SendInterrupted] + after)[1..] == before[1..] + [SendInterrupted] + after;
      assert (before + after)[1..] == before[1..] + after;
    }
  }

  /** It does not matter either if what one call takes is taken by two. */
  lemma {:induction false} PiecesDoNotMatter(before: seq<Departure>, after: seq<Departure>, m: nat, n: nat)
    requires m > 0 && n > 0
    ensures Room(before + [Taken(m), Taken(n)] + after) == Room(before + [Taken(m + n)] + after)
  {
    var two, one := [Taken(m), Taken(n)], [Taken(m + n)];
    if before == [] {
      assert [] + two + after == two + after && [] + one + after == one + after;
      assert (one + after)[1..] == after;
      assert (two + after)[1..] == [Taken(n)] + after && ([Taken(n)] + after)[1..] == after;
    } else {
      PiecesDoNotMatter(before[1..], after, m, n);
      assert (before + two + after)[1..] == before[1..] + two + after;
      assert (before + one + after)[1..] == before[1..] + one + after;
    }
  }

  /** Without interrupts or refusals, all that is offered is taken; nothing is after the first refusal. */
  lemma {:induction false} RoomIsTheSum(limits: seq<nat>, after: seq<Departure>)
    requires forall i :: 0 <= i < |limits| ==> limits[i] > 0
    ensures Room(Takes(limits) + [Taken(0)] + after) == Room(Takes(limits)) == Sum(limits)
  {
    var script := Takes(limits) + [Taken(0)] + after;
    if limits != [] {
      RoomIsTheSum(limits[1..], after);
      assert Takes(limits)[1..] == Takes(limits[1..]);
      assert script[1..] == Takes(limits[1..]) + [Taken(0)] + after;
    }
  }

  function Takes(limits: seq<nat>): (script: seq<Departure>)
    ensures |script| == |limits| && forall i :: 0 <= i < |limits| ==> script[i] == Taken(limits[i])
  {
    seq(|limits|, i requires 0 <= i < |limits| => Taken(limits[i]))
  }

  function Sum(limits: seq<nat>): nat {
    if limits == [] then 0 else limits[0] + Sum(limits[1..])
  }

  class Sender {
    var wire: Bytes
    var script: seq<Departure>

    constructor (script: seq<Departure>)
      ensures wire == [] && this.script == script
    {
      wire, this.script := [], script;
    }

    /** `send_all` puts the bytes on the wire in order, as many as are taken; it succeeds when that is all. */
    method SendAll(data: Bytes) returns (ok: bool)
      modifies this
      ensures ok <==> |data| <= old(Room(script))
      ensures wire == old(wire) + if ok then data else data[..old(Room(script))]
    {
      var sent := 0;
      while sent < |data|
        invariant 0 <= sent <= |data| && wire == old(wire) + data[..sent]
        invariant sent < |data| ==> sent + Room(script) == old(Room(script))
        invariant sent == |data| ==> |data| <= old(Room(script))
        decreases |script|
      {
        if script == [] {
          return false;
        }
        var d := script[0];
        script := script[1..];
        if d.Taken? {
          var k := if d.limit < |data| - sent then d.limit else |data| - sent;
          if k == 0 {
            return false;
          }
          wire := wire + data[sent..sent + k];
          sent := sent + k;
        }
      }
      assert data[..|data|] == data;
      ok := true;
    }

    method SendMsg(m: Message) returns (ok: bool)
      modifies this
      ensures ok <==> |FrameOf(m)| <= old(Room(script))
      ensures wire == old(wire) + if ok then FrameOf(m) else FrameOf(m)[..old(Room(script))]
    {
      var framed := Frame(m.msgType, m.payload);
      ok := SendAll(framed);
    }
  }

  lemma {:induction false} FramesAppend(ms: seq<Message>, m: Message)
    ensures Frames(ms + [m]) == Frames(ms) + FrameOf(m)
  {
    hide FrameOf;
    if ms == [] {
      assert [m][1..] == [];
    } else {
      FramesAppend(ms[1..], m);
      assert (ms + [m])[1..] == ms[1..] + [m];
    }
  }

  lemma {:induction false} FramesPrefix(ms: seq<Message>, n: nat)
    requires n <= |ms|
    ensures Frames(ms[..n]) <= Frames(ms)
  {
    hide FrameOf;
    if n > 0 {
      FramesPrefix(ms[1..], n - 1);
      assert ms[..n][1..] == ms[1..][..n - 1];
    }
  }

  /** Messages sent one after the other leave exactly the concatenation of their frames on the wire,
      or, when sending fails, a strict prefix of it. */
  method SendEach(s: Sender, ms: seq<Message>) returns (ok: bool)
    modifies s
    ensures ok ==> s.wire == old(s.wire) + Frames(ms)
    ensures !ok ==> old(s.wire) <= s.wire < old(s.wire) + Frames(ms)
  {
    hide FrameOf;
    assert Frames(ms[..0]) == [];
    hide Frames;
    ghost var before := s.wire;
    var i := 0;
    while i < |ms|
      invariant i <= |ms| && s.wire == old(s.wire) + Frames(ms[..i])
    {
      ghost var sent := s.wire;
      ok := s.SendMsg(ms[i]);
      FramesAppend(ms[..i], ms[i]);
      if !ok {
        assert ms[..i] + [ms[i]] == ms[..i + 1];
        FramesPrefix(ms, i + 1);
        assert sent <= s.wire < sent + FrameOf(ms[i]);
        assert sent + FrameOf(ms[i]) == before + Frames(ms[..i + 1]) <= before + Frames(ms);
        return;
      }
      assert ms[..i + 1] == ms[..i] + [ms[i]];
      i := i + 1;
    }
    assert ms[..|ms|] == ms;
    ok := true;
  }
}
