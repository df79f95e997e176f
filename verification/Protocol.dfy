/** The messages of include/net/Protocol.hpp and their encoders and decoders in src/net/Protocol.cpp. */
module Protocol {
  import opened Tasks
  import opened Wire

  datatype NodeInfo = NodeInfo(nodeId: u32, host: Bytes, port: u16, numWorkers: u32, tag: Bytes, pending: u64)

  datatype Msg =
    | Register(host: Bytes, port: u16, numWorkers: u32, tag: Bytes)
    | RegisterAck(nodeId: u32)
    | Heartbeat(nodeId: u32, pending: u64, completed: u64)
    | NodeList(nodes: seq<NodeInfo>)
    | StealRequest(requester: u32, maxTasks: u32, preferredType: u16)
    | StealResponse(tasks: seq<Task>, victimPending: u64)
    | TaskResult(taskId: u64, status: u32)

  datatype Kind = KRegister | KRegisterAck | KHeartbeat | KNodeList | KStealRequest | KStealResponse | KTaskResult

  function KindOf(m: Msg): Kind {
    match m
    case Register(_, _, _, _) => KRegister
    case RegisterAck(_) => KRegisterAck
    case Heartbeat(_, _, _) => KHeartbeat
    case NodeList(_) => KNodeList
    case StealRequest(_, _, _) => KStealRequest
    case StealResponse(_, _) => KStealResponse
    case TaskResult(_, _) => KTaskResult
  }

  // ---------------------------------------------------------------- formats

  const U16 := UInt(2)
  const U32 := UInt(4)
  const U64 := UInt(8)

  const TASK_FMT := Pair(U64, Pair(U64, Pair(U32, Pair(U32, Pair(U32, Pair(U16, Fmt.Blob))))))

  const NODE_FMT := Pair(U32, Pair(Fmt.Blob, Pair(U16, Pair(U32, Pair(Fmt.Blob, U64)))))

  function Format(k: Kind): Fmt {
    match k
    case KRegister => Pair(Fmt.Blob, Pair(U16, Pair(U32, Fmt.Blob)))
    case KRegisterAck => U32
    case KHeartbeat => Pair(U32, Pair(U64, U64))
    case KNodeList => List(NODE_FMT)
    case KStealRequest => Pair(U32, Pair(U32, U16))
    case KStealResponse => Pair(List(TASK_FMT), U64)
    case KTaskResult => Pair(U64, U32)
  }

  // ---------------------------------------------------------------- messages as values

  /** A task on the wire: its portable fields, without the closure and the trace stamp. */
  function TaskVal(t: Task): Val {
    Both(Num(t.taskId), Both(Num(t.parentId), Both(Num(t.depth), Both(Num(t.costHint),
      Both(Num(t.originNode), Both(Num(t.taskType), Raw(t.payload)))))))
  }

  function NodeVal(n: NodeInfo): Val {
    Both(Num(n.nodeId), Both(Raw(n.host), Both(Num(n.port), Both(Num(n.numWorkers),
      Both(Raw(n.tag), Num(n.pending))))))
  }

  function TaskVals(ts: seq<Task>): (vs: seq<Val>)
    ensures |vs| == |ts| && forall i :: 0 <= i < |ts| ==> vs[i] == TaskVal(ts[i])
  {
    seq(|ts|, i requires 0 <= i < |ts| => TaskVal(ts[i]))
  }

  function NodeVals(ns: seq<NodeInfo>): (vs: seq<Val>)
    ensures |vs| == |ns| && forall i :: 0 <= i < |ns| ==> vs[i] == NodeVal(ns[i])
  {
    seq(|ns|, i requires 0 <= i < |ns| => NodeVal(ns[i]))
  }

  function ValueOf(m: Msg): Val {
    match m
    case Register(host, port, workers, tag) => Both(Raw(host), Both(Num(port), Both(Num(workers), Raw(tag))))
    case RegisterAck(id) => Num(id)
    case Heartbeat(id, pending, completed) => Both(Num(id), Both(Num(pending), Num(completed)))
    case NodeList(nodes) => Items(NodeVals(nodes))
    case StealRequest(requester, maxTasks, preferred) => Both(Num(requester), Both(Num(maxTasks), Num(preferred)))
    case StealResponse(tasks, pending) => Both(Items(TaskVals(tasks)), Num(pending))
    case TaskResult(id, status) => Both(Num(id), Num(status))
  }

  lemma TaskConforms(t: Task)
    ensures Conforms(TASK_FMT, TaskVal(t))
    ensures Fits(TASK_FMT, TaskVal(t)) <==> |t.payload| < 0x1_0000_0000
  {
    Widths();
    ShapeRules();
    hide Pow256, Conforms, Fits;
  }

  lemma NodeConforms(n: NodeInfo)
    ensures Conforms(NODE_FMT, NodeVal(n))
    ensures Fits(NODE_FMT, NodeVal(n)) <==> |n.host| < 0x1_0000_0000 && |n.tag| < 0x1_0000_0000
  {
    Widths();
    ShapeRules();
    hide Pow256, Conforms, Fits;
  }

  lemma TasksConform(ts: seq<Task>)
    ensures forall i :: 0 <= i < |ts| ==> Conforms(TASK_FMT, TaskVals(ts)[i])
    ensures forall i :: 0 <= i < |ts| ==> (Fits(TASK_FMT, TaskVals(ts)[i]) <==> |ts[i].payload| < 0x1_0000_0000)
  {
    hide Conforms, Fits, TaskVal;
    forall i | 0 <= i < |ts|
      ensures Conforms(TASK_FMT, TaskVals(ts)[i])
      ensures Fits(TASK_FMT, TaskVals(ts)[i]) <==> |ts[i].payload| < 0x1_0000_0000
    {
      TaskConforms(ts[i]);
    }
  }

  lemma NodesConform(ns: seq<NodeInfo>)
    ensures forall i :: 0 <= i < |ns| ==> Conforms(NODE_FMT, NodeVals(ns)[i])
    ensures forall i :: 0 <= i < |ns| ==>
              (Fits(NODE_FMT, NodeVals(ns)[i]) <==> |ns[i].host| < 0x1_0000_0000 && |ns[i].tag| < 0x1_0000_0000)
  {
    hide Conforms, Fits, NodeVal;
    forall i | 0 <= i < |ns|
      ensures Conforms(NODE_FMT, NodeVals(ns)[i])
      ensures Fits(NODE_FMT, NodeVals(ns)[i]) <==> |ns[i].host| < 0x1_0000_0000 && |ns[i].tag| < 0x1_0000_0000
    {
      NodeConforms(ns[i]);
    }
  }

  /** The bytes of one task, of one node record, and of runs of them. */
  ghost function TaskBytes(t: Task): Bytes {
    TaskConforms(t);
    Enc(TASK_FMT, TaskVal(t))
  }

  ghost function NodeBytes(n: NodeInfo): Bytes {
    NodeConforms(n);
    Enc(NODE_FMT, NodeVal(n))
  }

  ghost function TasksBytes(ts: seq<Task>): Bytes {
    TasksConform(ts);
    EncAll(TASK_FMT, TaskVals(ts))
  }

  ghost function NodesBytes(ns: seq<NodeInfo>): Bytes {
    NodesConform(ns);
    EncAll(NODE_FMT, NodeVals(ns))
  }

  lemma TasksBytesStep(all: seq<Task>, i: nat)
    requires i < |all|
    ensures TasksBytes(all[..i + 1]) == TasksBytes(all[..i]) + TaskBytes(all[i])
  {
    var ts, t := all[..i], all[i];
    TasksConform(ts);
    TaskConforms(t);
    assert TaskVals(all[..i + 1]) == TaskVals(ts) + [TaskVal(t)];
    EncAllAppend(TASK_FMT, TaskVals(ts), TaskVal(t));
  }

  lemma NodesBytesStep(all: seq<NodeInfo>, i: nat)
    requires i < |all|
    ensures NodesBytes(all[..i + 1]) == NodesBytes(all[..i]) + NodeBytes(all[i])
  {
    var ns, n := all[..i], all[i];
    NodesConform(ns);
    NodeConforms(n);
    assert NodeVals(all[..i + 1]) == NodeVals(ns) + [NodeVal(n)];
    EncAllAppend(NODE_FMT, NodeVals(ns), NodeVal(n));
  }

  /** Every length in the message fits the 32-bit prefix that announces it. */
  predicate LengthsFit(m: Msg) {
    match m
    case Register(host, _, _, tag) => |host| < 0x1_0000_0000 && |tag| < 0x1_0000_0000
    case NodeList(nodes) =>
      |nodes| < 0x1_0000_0000
      && forall n :: n in nodes ==> |n.host| < 0x1_0000_0000 && |n.tag| < 0x1_0000_0000
    case StealResponse(tasks, _) =>
      |tasks| < 0x1_0000_0000 && forall t :: t in tasks ==> |t.payload| < 0x1_0000_0000
    case _ => true
  }

  lemma MessageConforms(m: Msg)
    ensures Conforms(Format(KindOf(m)), ValueOf(m))
    ensures Fits(Format(KindOf(m)), ValueOf(m)) <==> LengthsFit(m)
  {
    Widths();
    ShapeRules();
    hide Pow256, Conforms, Fits;
    match m
    case NodeList(nodes) =>
      ListRule(NODE_FMT, NodeVals(nodes));
      NodesConform(nodes);
    case StealResponse(tasks, _) =>
      ListRule(TASK_FMT, TaskVals(tasks));
      TasksConform(tasks);
    case _ =>
  }

  /** The bytes `encode` produces for a message. */
  ghost function Encoding(m: Msg): Bytes {
    MessageConforms(m);
    Enc(Format(KindOf(m)), ValueOf(m))
  }

  /** The decoder for kind `k` reports success on `b`. */
  ghost predicate Accepts(k: Kind, b: Bytes) {
    Dec(Format(k), b).Some?
  }

  /** The decoder for kind `k` succeeds on `b` and its result is `m`; bytes after the message are ignored. */
  ghost predicate Decodes(k: Kind, b: Bytes, m: Msg) {
    KindOf(m) == k && Dec(Format(k), b).Some? && Dec(Format(k), b).value.0 == ValueOf(m)
  }

  lemma ValueInjective(m: Msg, m': Msg)
    requires KindOf(m) == KindOf(m') && ValueOf(m) == ValueOf(m')
    ensures m == m'
  {
    match m
    case NodeList(nodes) =>
      forall i | 0 <= i < |nodes|
        ensures nodes[i] == m'.nodes[i]
      {
        assert NodeVals(nodes)[i] == NodeVals(m'.nodes)[i];
      }
    case StealResponse(tasks, _) =>
      forall i | 0 <= i < |tasks|
        ensures tasks[i] == m'.tasks[i]
      {
        assert TaskVals(tasks)[i] == TaskVals(m'.tasks)[i];
      }
    case _ =>
  }

  // ---------------------------------------------------------------- the codec's laws

  /** Decoding an encoded message gives it back, exactly when its lengths fit their prefixes. */
  lemma MessageRoundTrip(m: Msg)
    ensures Decodes(KindOf(m), Encoding(m), m) <==> LengthsFit(m)
  {
    MessageConforms(m);
    hide Enc, Dec, Conforms, Fits, Format, ValueOf, KindOf;
    var f, v := Format(KindOf(m)), ValueOf(m);
    if LengthsFit(m) {
      RoundTripIff(f, v);
    } else if Dec(f, Enc(f, v)).Some? && Dec(f, Enc(f, v)).value.0 == v {
      Canonical(f, Enc(f, v));
    }
  }

  /** A buffer decodes to at most one message. */
  lemma DecodesUnique(k: Kind, b: Bytes, m: Msg, m': Msg)
    requires Decodes(k, b, m) && Decodes(k, b, m')
    ensures m == m'
  {
    ValueInjective(m, m');
  }

  /** What decodes is the encoding of the decoded message followed by ignored bytes; re-encoding gives it back. */
  lemma MessageCanonical(k: Kind, b: Bytes, m: Msg)
    ensures Decodes(k, b, m) <==> KindOf(m) == k && LengthsFit(m) && Encoding(m) <= b
  {
    MessageConforms(m);
    hide Enc, Dec, Conforms, Fits, Format, ValueOf, KindOf;
    var f, v := Format(KindOf(m)), ValueOf(m);
    if KindOf(m) == k && LengthsFit(m) && Encoding(m) <= b {
      RoundTrip(f, v, b[|Encoding(m)|..]);
      assert Encoding(m) + b[|Encoding(m)|..] == b;
    } else if Decodes(k, b, m) {
      Canonical(f, b);
    }
  }

  /** No strict prefix of an encoding is accepted. */
  lemma TruncationRejected(m: Msg, p: Bytes)
    requires LengthsFit(m) && p < Encoding(m)
    ensures !Accepts(KindOf(m), p)
  {
    MessageConforms(m);
    hide Enc, Dec, Conforms, Fits, Format, ValueOf, KindOf;
    PrefixRejected(Format(KindOf(m)), ValueOf(m), p);
  }

  lemma TaskFromVal(v: Val) returns (t: Task)
    requires Conforms(TASK_FMT, v)
    ensures TaskVal(t) == v
  {
    Widths();
    ShapeRules();
    hide Conforms, Pow256;
    var v1 := v.right;
    var v2 := v1.right;
    var v3 := v2.right;
    var v4 := v3.right;
    var v5 := v4.right;
    t := Task(v.left.n, v1.left.n, v2.left.n, v3.left.n, v4.left.n, v5.left.n, v5.right.bytes);
  }

  lemma NodeFromVal(v: Val) returns (n: NodeInfo)
    requires Conforms(NODE_FMT, v)
    ensures NodeVal(n) == v
  {
    Widths();
    ShapeRules();
    hide Conforms, Pow256;
    var v1 := v.right;
    var v2 := v1.right;
    var v3 := v2.right;
    var v4 := v3.right;
    n := NodeInfo(v.left.n, v1.left.bytes, v2.left.n, v3.left.n, v4.left.bytes, v4.right.n);
  }

  lemma {:induction false} TasksFromVals(vs: seq<Val>) returns (ts: seq<Task>)
    requires forall i :: 0 <= i < |vs| ==> Conforms(TASK_FMT, vs[i])
    ensures TaskVals(ts) == vs
  {
    hide Conforms, TaskVal;
    ts := [];
    if vs != [] {
      var n := |vs| - 1;
      var init := TasksFromVals(vs[..n]);
      var last := TaskFromVal(vs[n]);
      ts := init + [last];
      assert vs == vs[..n] + [vs[n]];
    }
  }

  lemma {:induction false} NodesFromVals(vs: seq<Val>) returns (ns: seq<NodeInfo>)
    requires forall i :: 0 <= i < |vs| ==> Conforms(NODE_FMT, vs[i])
    ensures NodeVals(ns) == vs
  {
    hide Conforms, NodeVal;
    ns := [];
    if vs != [] {
      var n := |vs| - 1;
      var init := NodesFromVals(vs[..n]);
      var last := NodeFromVal(vs[n]);
      ns := init + [last];
      assert vs == vs[..n] + [vs[n]];
    }
  }

  lemma MessageFromVal(k: Kind, v: Val) returns (m: Msg)
    requires Conforms(Format(k), v)
    ensures KindOf(m) == k && ValueOf(m) == v
  {
    Widths();
    ShapeRules();
    match k
    case KRegister => m := Register(v.left.bytes, v.right.left.n, v.right.right.left.n, v.right.right.right.bytes);
    case KRegisterAck => m := RegisterAck(v.n);
    case KHeartbeat => m := Heartbeat(v.left.n, v.right.left.n, v.right.right.n);
    case KNodeList =>
      var ns := NodesFromVals(v.items);
      m := NodeList(ns);
    case KStealRequest => m := StealRequest(v.left.n, v.right.left.n, v.right.right.n);
    case KStealResponse =>
      var ts := TasksFromVals(v.left.items);
      m := StealResponse(ts, v.right.n);
    case KTaskResult => m := TaskResult(v.left.n, v.right.n);
  }

  /** A buffer is accepted exactly when it starts with the encoding of some message of that kind. */
  lemma AcceptsIffStartsWithEncoding(k: Kind, b: Bytes)
    ensures Accepts(k, b) <==> exists m :: KindOf(m) == k && LengthsFit(m) && Encoding(m) <= b
  {
    hide Enc, Dec, Conforms, Fits, Format, ValueOf, KindOf, LengthsFit, Encoding;
    if Accepts(k, b) {
      Canonical(Format(k), b);
      var m := MessageFromVal(k, Dec(Format(k), b).value.0);
      MessageCanonical(k, b, m);
    } else if exists m :: KindOf(m) == k && LengthsFit(m) && Encoding(m) <= b {
      var m :| KindOf(m) == k && LengthsFit(m) && Encoding(m) <= b;
      MessageCanonical(k, b, m);
    }
  }

  // ---------------------------------------------------------------- encoders

  method EncodeTask(w: ByteWriter, t: Task)
    modifies w
    ensures w.buf == old(w.buf) + TaskBytes(t)
  {
    TaskConforms(t);
    hide LE, Pow256;
    w.UInt(t.taskId, 8);
    w.UInt(t.parentId, 8);
    w.UInt(t.depth, 4);
    w.UInt(t.costHint, 4);
    w.UInt(t.originNode, 4);
    w.UInt(t.taskType, 2);
    w.Blob(t.payload);
  }

  method EncodeNodeInfo(w: ByteWriter, n: NodeInfo)
    modifies w
    ensures w.buf == old(w.buf) + NodeBytes(n)
  {
    NodeConforms(n);
    hide LE, Pow256;
    w.UInt(n.nodeId, 4);
    w.Blob(n.host);
    w.UInt(n.port, 2);
    w.UInt(n.numWorkers, 4);
    w.Blob(n.tag);
    w.UInt(n.pending, 8);
  }

  method EncodeRegister(m: Msg) returns (b: Bytes)
    requires m.Register?
    ensures b == Encoding(m)
  {
    MessageConforms(m);
    hide LE, Pow256;
    var w := new ByteWriter();
    w.Blob(m.host);
    w.UInt(m.port, 2);
    w.UInt(m.numWorkers, 4);
    w.Blob(m.tag);
    b := w.buf;
  }

  method EncodeRegisterAck(m: Msg) returns (b: Bytes)
    requires m.RegisterAck?
    ensures b == Encoding(m)
  {
    MessageConforms(m);
    var w := new ByteWriter();
    w.UInt(m.nodeId, 4);
    b := w.buf;
  }

  method EncodeHeartbeat(m: Msg) returns (b: Bytes)
    requires m.Heartbeat?
    ensures b == Encoding(m)
  {
    MessageConforms(m);
    hide LE, Pow256;
    var w := new ByteWriter();
    w.UInt(m.nodeId, 4);
    w.UInt(m.pending, 8);
    w.UInt(m.completed, 8);
    b := w.buf;
  }

  method EncodeTasks(w: ByteWriter, tasks: seq<Task>)
    modifies w
    ensures w.buf == old(w.buf) + LE(|tasks|, 4) + TasksBytes(tasks)
  {
    w.UInt(|tasks|, 4);
    assert TasksBytes(tasks[..0]) == [];
    hide *;
    for i := 0 to |tasks|
      invariant w.buf == old(w.buf) + LE(|tasks|, 4) + TasksBytes(tasks[..i])
    {
      EncodeTask(w, tasks[i]);
      TasksBytesStep(tasks, i);
    }
    assert tasks[..|tasks|] == tasks;
  }

  method EncodeNodes(w: ByteWriter, nodes: seq<NodeInfo>)
    modifies w
    ensures w.buf == old(w.buf) + LE(|nodes|, 4) + NodesBytes(nodes)
  {
    w.UInt(|nodes|, 4);
    assert NodesBytes(nodes[..0]) == [];
    hide *;
    for i := 0 to |nodes|
      invariant w.buf == old(w.buf) + LE(|nodes|, 4) + NodesBytes(nodes[..i])
    {
      EncodeNodeInfo(w, nodes[i]);
      NodesBytesStep(nodes, i);
    }
    assert nodes[..|nodes|] == nodes;
  }

  method EncodeNodeList(m: Msg) returns (b: Bytes)
    requires m.NodeList?
    ensures b == Encoding(m)
  {
    MessageConforms(m);
    hide LE, Pow256;
    var w := new ByteWriter();
    EncodeNodes(w, m.nodes);
    b := w.buf;
  }

  method EncodeStealRequest(m: Msg) returns (b: Bytes)
    requires m.StealRequest?
    ensures b == Encoding(m)
  {
    MessageConforms(m);
    hide LE, Pow256;
    var w := new ByteWriter();
    w.UInt(m.requester, 4);
    w.UInt(m.maxTasks, 4);
    w.UInt(m.preferredType, 2);
    b := w.buf;
  }

  method EncodeStealResponse(m: Msg) returns (b: Bytes)
    requires m.StealResponse?
    ensures b == Encoding(m)
  {
    MessageConforms(m);
    hide LE, Pow256;
    var w := new ByteWriter();
    EncodeTasks(w, m.tasks);
    w.UInt(m.victimPending, 8);
    b := w.buf;
  }

  method EncodeTaskResult(m: Msg) returns (b: Bytes)
    requires m.TaskResult?
    ensures b == Encoding(m)
  {
    MessageConforms(m);
    hide LE, Pow256;
    var w := new ByteWriter();
    w.UInt(m.taskId, 8);
    w.UInt(m.status, 4);
    b := w.buf;
  }

  // ---------------------------------------------------------------- decoders

  method DecodeTask(r: ByteReader) returns (t: Task)
    requires r.Valid()
    modifies r
    ensures r.Valid() && r.left == Rest(old(r.left), TASK_FMT)
    ensures r.left.Some? ==> Read(old(r.left), TASK_FMT) == TaskVal(t)
  {
    Widths();
    PairRules();
    hide UnLE, Pow256, Dec, Rest, Read;
    var id := r.UInt(8);
    var parent := r.UInt(8);
    var depth := r.UInt(4);
    var cost := r.UInt(4);
    var origin := r.UInt(4);
    var taskType := r.UInt(2);
    var payload := r.Blob();
    t := Task(id, parent, depth, cost, origin, taskType, payload);
  }

  method DecodeNodeInfo(r: ByteReader) returns (n: NodeInfo)
    requires r.Valid()
    modifies r
    ensures r.Valid() && r.left == Rest(old(r.left), NODE_FMT)
    ensures r.left.Some? ==> Read(old(r.left), NODE_FMT) == NodeVal(n)
  {
    Widths();
    PairRules();
    hide UnLE, Pow256, Dec, Rest, Read;
    var id := r.UInt(4);
    var host := r.Blob();
    var port := r.UInt(2);
    var workers := r.UInt(4);
    var tag := r.Blob();
    var pending := r.UInt(8);
    n := NodeInfo(id, host, port, workers, tag, pending);
  }

  // The fields of one message are read in order; what a missing field reads as does not matter,
  // because the reader's failure is sticky.

  method ReadRegister(r: ByteReader) returns (m: Msg)
    requires r.Valid()
    modifies r
    ensures r.Valid() && r.left == Rest(old(r.left), Format(KRegister)) && m.Register?
    ensures r.left.Some? ==> Read(old(r.left), Format(KRegister)) == ValueOf(m)
  {
    Widths();
    PairRules();
    hide UnLE, Pow256, Dec, Rest, Read;
    var host := r.Blob();
    var port := r.UInt(2);
    var workers := r.UInt(4);
    var tag := r.Blob();
    m := Register(host, port, workers, tag);
  }

  method DecodeRegister(b: Bytes) returns (ok: bool, m: Msg)
    ensures ok <==> Accepts(KRegister, b)
    ensures ok ==> Decodes(KRegister, b, m)
  {
    hide Dec, ValueOf, Format;
    var r := new ByteReader(b);
    m := ReadRegister(r);
    ok := r.Ok();
  }

  method ReadRegisterAck(r: ByteReader) returns (m: Msg)
    requires r.Valid()
    modifies r
    ensures r.Valid() && r.left == Rest(old(r.left), Format(KRegisterAck)) && m.RegisterAck?
    ensures r.left.Some? ==> Read(old(r.left), Format(KRegisterAck)) == ValueOf(m)
  {
    Widths();
    PairRules();
    hide UnLE, Pow256, Dec, Rest, Read;
    var id := r.UInt(4);
    m := RegisterAck(id);
  }

  method DecodeRegisterAck(b: Bytes) returns (ok: bool, m: Msg)
    ensures ok <==> Accepts(KRegisterAck, b)
    ensures ok ==> Decodes(KRegisterAck, b, m)
  {
    hide Dec, ValueOf, Format;
    var r := new ByteReader(b);
    m := ReadRegisterAck(r);
    ok := r.Ok();
  }

  method ReadHeartbeat(r: ByteReader) returns (m: Msg)
    requires r.Valid()
    modifies r
    ensures r.Valid() && r.left == Rest(old(r.left), Format(KHeartbeat)) && m.Heartbeat?
    ensures r.left.Some? ==> Read(old(r.left), Format(KHeartbeat)) == ValueOf(m)
  {
    Widths();
    PairRules();
    hide UnLE, Pow256, Dec, Rest, Read;
    var id := r.UInt(4);
    var pending := r.UInt(8);
    var completed := r.UInt(8);
    m := Heartbeat(id, pending, completed);
  }

  method DecodeHeartbeat(b: Bytes) returns (ok: bool, m: Msg)
    ensures ok <==> Accepts(KHeartbeat, b)
    ensures ok ==> Decodes(KHeartbeat, b, m)
  {
    hide Dec, ValueOf, Format;
    var r := new ByteReader(b);
    m := ReadHeartbeat(r);
    ok := r.Ok();
  }

  method ReadStealRequest(r: ByteReader) returns (m: Msg)
    requires r.Valid()
    modifies r
    ensures r.Valid() && r.left == Rest(old(r.left), Format(KStealRequest)) && m.StealRequest?
    ensures r.left.Some? ==> Read(old(r.left), Format(KStealRequest)) == ValueOf(m)
  {
    Widths();
    PairRules();
    hide UnLE, Pow256, Dec, Rest, Read;
    var requester := r.UInt(4);
    var maxTasks := r.UInt(4);
    var preferred := r.UInt(2);
    m := StealRequest(requester, maxTasks, preferred);
  }

  method DecodeStealRequest(b: Bytes) returns (ok: bool, m: Msg)
    ensures ok <==> Accepts(KStealRequest, b)
    ensures ok ==> Decodes(KStealRequest, b, m)
  {
    hide Dec, ValueOf, Format;
    var r := new ByteReader(b);
    m := ReadStealRequest(r);
    ok := r.Ok();
  }

  method ReadTaskResult(r: ByteReader) returns (m: Msg)
    requires r.Valid()
    modifies r
    ensures r.Valid() && r.left == Rest(old(r.left), Format(KTaskResult)) && m.TaskResult?
    ensures r.left.Some? ==> Read(old(r.left), Format(KTaskResult)) == ValueOf(m)
  {
    Widths();
    PairRules();
    hide UnLE, Pow256, Dec, Rest, Read;
    var id := r.UInt(8);
    var status := r.UInt(4);
    m := TaskResult(id, status);
  }

  method DecodeTaskResult(b: Bytes) returns (ok: bool, m: Msg)
    ensures ok <==> Accepts(KTaskResult, b)
    ensures ok ==> Decodes(KTaskResult, b, m)
  {
    hide Dec, ValueOf, Format;
    var r := new ByteReader(b);
    m := ReadTaskResult(r);
    ok := r.Ok();
  }

  ghost function Remaining(s: Option<Bytes>): nat {
    if s.Some? then |s.value| else 0
  }

  lemma MinSizes()
    ensures MinSize(TASK_FMT) == 34 && MinSize(NODE_FMT) == 26
  {}

  lemma TaskValsAppend(ts: seq<Task>, t: Task)
    ensures TaskVals(ts + [t]) == TaskVals(ts) + [TaskVal(t)]
  {}

  lemma NodeValsAppend(ns: seq<NodeInfo>, n: NodeInfo)
    ensures NodeVals(ns + [n]) == NodeVals(ns) + [NodeVal(n)]
  {}

  /**
    The decoding loop.  It stops at the first element that does not decode, and whatever count was
    announced it never produces more elements than 34 bytes each leave room for.
   */
  method ReadTasks(r: ByteReader) returns (tasks: seq<Task>)
    requires r.Valid() && r.left.Some?
    modifies r
    ensures r.Valid() && r.left == Rest(old(r.left), List(TASK_FMT))
    ensures r.left.Some? ==> Read(old(r.left), List(TASK_FMT)) == Items(TaskVals(tasks))
    ensures 34 * |tasks| + Remaining(r.left) <= |old(r.left).value|
  {
    tasks := [];
    assert TaskVals(tasks) == [];
    MinSizes();
    hide DecAll, Dec, Rest, Read, OnTheWay, MinSize, LE, UnLE, Pow256, TaskVal, NodeVal, TaskVals, NodeVals;
    ghost var b := r.left.value;
    ListStart(TASK_FMT, b);
    var count := r.UInt(4);
    var ok := r.Ok();
    if !ok {
      return;
    }
    var i := 0;
    while i < count
      invariant i <= count && |tasks| == i
      invariant r.Valid() && OnTheWay(TASK_FMT, b, TaskVals(tasks), count - i, r.left)
      invariant 34 * i + Remaining(r.left) <= |b|
    {
      ListStep(TASK_FMT, b, TaskVals(tasks), count - i, r.left);
      var x := DecodeTask(r);
      ok := r.Ok();
      if !ok {
        return;
      }
      TaskValsAppend(tasks, x);
      tasks, i := tasks + [x], i + 1;
    }
    ListEnd(TASK_FMT, b, TaskVals(tasks), r.left);
  }

  /**
    The decoding loop.  It stops at the first element that does not decode, and whatever count was
    announced it never produces more elements than 26 bytes each leave room for.
   */
  method ReadNodes(r: ByteReader) returns (nodes: seq<NodeInfo>)
    requires r.Valid() && r.left.Some?
    modifies r
    ensures r.Valid() && r.left == Rest(old(r.left), List(NODE_FMT))
    ensures r.left.Some? ==> Read(old(r.left), List(NODE_FMT)) == Items(NodeVals(nodes))
    ensures 26 * |nodes| + Remaining(r.left) <= |old(r.left).value|
  {
    nodes := [];
    assert NodeVals(nodes) == [];
    MinSizes();
    hide DecAll, Dec, Rest, Read, OnTheWay, MinSize, LE, UnLE, Pow256, TaskVal, NodeVal, TaskVals, NodeVals;
    ghost var b := r.left.value;
    ListStart(NODE_FMT, b);
    var count := r.UInt(4);
    var ok := r.Ok();
    if !ok {
      return;
    }
    var i := 0;
    while i < count
      invariant i <= count && |nodes| == i
      invariant r.Valid() && OnTheWay(NODE_FMT, b, NodeVals(nodes), count - i, r.left)
      invariant 26 * i + Remaining(r.left) <= |b|
    {
      ListStep(NODE_FMT, b, NodeVals(nodes), count - i, r.left);
      var x := DecodeNodeInfo(r);
      ok := r.Ok();
      if !ok {
        return;
      }
      NodeValsAppend(nodes, x);
      nodes, i := nodes + [x], i + 1;
    }
    ListEnd(NODE_FMT, b, NodeVals(nodes), r.left);
  }

  /** Even a response that is rejected has produced at most one task for every 34 bytes of input. */
  method DecodeStealResponse(b: Bytes) returns (ok: bool, m: Msg)
    ensures ok <==> Accepts(KStealResponse, b)
    ensures ok ==> Decodes(KStealResponse, b, m)
    ensures m.StealResponse? && 34 * |m.tasks| <= |b|
  {
    Widths();
    PairRules();
    ReadRule(Format(KStealResponse), b);
    hide Dec, UnLE, Pow256, TaskVals, Rest, Read;
    var r := new ByteReader(b);
    var tasks := ReadTasks(r);
    m := StealResponse(tasks, 0);
    ok := r.Ok();
    if !ok {
      return;
    }
    var pending := r.UInt(8);
    m := StealResponse(tasks, pending);
    ok := r.Ok();
  }

  /** At most one node for every 26 bytes of input, accepted or not. */
  method DecodeNodeList(b: Bytes) returns (ok: bool, m: Msg)
    ensures ok <==> Accepts(KNodeList, b)
    ensures ok ==> Decodes(KNodeList, b, m)
    ensures m.NodeList? && 26 * |m.nodes| <= |b|
  {
    hide Dec, NodeVals;
    var r := new ByteReader(b);
    var nodes := ReadNodes(r);
    m := NodeList(nodes);
    ok := r.Ok();
  }
}
