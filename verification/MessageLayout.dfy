/**
  Which byte of which field is where in the messages of src/net/Protocol.cpp, by offset.  A peer written
  against these offsets and the decoders of `Protocol` agree on every buffer.
 */
module MessageLayout {
  import opened Tasks
  import opened Wire
  import opened Protocol

  /** From offset `at` on the bytes of `b` are this task. */
  ghost predicate TaskAt(b: Bytes, at: nat, t: Task) {
    && NumAt(b, at, 8, t.taskId) && NumAt(b, at + 8, 8, t.parentId)
    && NumAt(b, at + 16, 4, t.depth) && NumAt(b, at + 20, 4, t.costHint) && NumAt(b, at + 24, 4, t.originNode)
    && NumAt(b, at + 28, 2, t.taskType) && TextAt(b, at + 30, t.payload)
  }

  /** From offset `at` on the bytes of `b` are this node record. */
  ghost predicate NodeAt(b: Bytes, at: nat, n: NodeInfo) {
    var h := |n.host|;
    && NumAt(b, at, 4, n.nodeId) && TextAt(b, at + 4, n.host)
    && NumAt(b, at + 8 + h, 2, n.port) && NumAt(b, at + 10 + h, 4, n.numWorkers)
    && TextAt(b, at + 14 + h, n.tag) && NumAt(b, at + 18 + h + |n.tag|, 8, n.pending)
  }

  /** The bytes that the first `i` tasks take. */
  function TaskOffset(ts: seq<Task>, i: nat): nat
    requires i <= |ts|
  {
    if i == 0 then 0 else TaskOffset(ts, i - 1) + 34 + |ts[i - 1].payload|
  }

  function NodeOffset(ns: seq<NodeInfo>, i: nat): nat
    requires i <= |ns|
  {
    if i == 0 then 0 else NodeOffset(ns, i - 1) + 26 + |ns[i - 1].host| + |ns[i - 1].tag|
  }

  /** The buffer starts with the fields of `m`, each at its offset. */
  ghost predicate LaidOut(b: Bytes, m: Msg) {
    match m
    case Register(host, port, workers, tag) =>
      && TextAt(b, 0, host) && NumAt(b, 4 + |host|, 2, port) && NumAt(b, 6 + |host|, 4, workers)
      && TextAt(b, 10 + |host|, tag)
    case RegisterAck(id) => NumAt(b, 0, 4, id)
    case Heartbeat(id, pending, completed) =>
      NumAt(b, 0, 4, id) && NumAt(b, 4, 8, pending) && NumAt(b, 12, 8, completed)
    case NodeList(nodes) => NumAt(b, 0, 4, |nodes|) && NodesAt(b, 4, nodes, |nodes|)
    case StealRequest(requester, maxTasks, preferred) =>
      NumAt(b, 0, 4, requester) && NumAt(b, 4, 4, maxTasks) && NumAt(b, 8, 2, preferred)
    case StealResponse(tasks, pending) =>
      && NumAt(b, 0, 4, |tasks|) && TasksAt(b, 4, tasks, |tasks|)
      && NumAt(b, 4 + TaskOffset(tasks, |tasks|), 8, pending)
    case TaskResult(id, status) => NumAt(b, 0, 8, id) && NumAt(b, 8, 4, status)
  }

  /** From offset `at` on there are the first `n` of the tasks, one behind the other. */
  ghost predicate TasksAt(b: Bytes, at: nat, ts: seq<Task>, n: nat)
    requires n <= |ts|
  {
    forall i :: 0 <= i < n ==> TaskAt(b, at + TaskOffset(ts, i), ts[i])
  }

  ghost predicate NodesAt(b: Bytes, at: nat, ns: seq<NodeInfo>, n: nat)
    requires n <= |ns|
  {
    forall i :: 0 <= i < n ==> NodeAt(b, at + NodeOffset(ns, i), ns[i])
  }

  /** The length of an encoded message. */
  function SizeOf(m: Msg): nat {
    match m
    case Register(host, _, _, tag) => 14 + |host| + |tag|
    case RegisterAck(_) => 4
    case Heartbeat(_, _, _) => 20
    case NodeList(nodes) => 4 + NodeOffset(nodes, |nodes|)
    case StealRequest(_, _, _) => 10
    case StealResponse(tasks, _) => 12 + TaskOffset(tasks, |tasks|)
    case TaskResult(_, _) => 12
  }

  // ---------------------------------------------------------------- records

  lemma TaskLayout(b: Bytes, at: nat, t: Task)
    ensures |TaskBytes(t)| == 34 + |t.payload|
    ensures TaskAt(b, at, t) <==> |t.payload| < 0x1_0000_0000 && PartAt(b, at, TaskBytes(t))
  {
    TaskConforms(t);
    Widths();
    hide LE, Pow256;
    var r1 := Text(t.payload);
    var r2 := LE(t.taskType, 2) + r1;
    var r3 := LE(t.originNode, 4) + r2;
    var r4 := LE(t.costHint, 4) + r3;
    var r5 := LE(t.depth, 4) + r4;
    var r6 := LE(t.parentId, 8) + r5;
    assert TaskBytes(t) == LE(t.taskId, 8) + r6;
    NumThen(b, at, 8, t.taskId, r6);
    NumThen(b, at + 8, 8, t.parentId, r5);
    NumThen(b, at + 16, 4, t.depth, r4);
    NumThen(b, at + 20, 4, t.costHint, r3);
    NumThen(b, at + 24, 4, t.originNode, r2);
    NumThen(b, at + 28, 2, t.taskType, r1);
    TextPart(b, at + 30, t.payload);
    hide NumAt, PartAt, TextAt, Text, TaskBytes;
  }

  lemma NodeParts(n: NodeInfo)
    ensures NodeBytes(n) == LE(n.nodeId, 4) + (Text(n.host) + (LE(n.port, 2) + (LE(n.numWorkers, 4)
                            + (Text(n.tag) + LE(n.pending, 8)))))
  {
    NodeConforms(n);
    hide LE, Pow256;
  }

  lemma NodeLayout(b: Bytes, at: nat, n: NodeInfo)
    ensures |NodeBytes(n)| == 26 + |n.host| + |n.tag|
    ensures NodeAt(b, at, n) <==>
            |n.host| < 0x1_0000_0000 && |n.tag| < 0x1_0000_0000 && PartAt(b, at, NodeBytes(n))
  {
    NodeParts(n);
    Widths();
    hide LE, Pow256, NumAt, PartAt, TextAt, Text, NodeBytes;
    var h := |n.host|;
    var r1 := LE(n.pending, 8);
    var r2 := Text(n.tag) + r1;
    var r3 := LE(n.numWorkers, 4) + r2;
    var r4 := LE(n.port, 2) + r3;
    NumThen(b, at, 4, n.nodeId, Text(n.host) + r4);
    TextThen(b, at + 4, n.host, r4);
    NumThen(b, at + 8 + h, 2, n.port, r3);
    NumThen(b, at + 10 + h, 4, n.numWorkers, r2);
    TextThen(b, at + 14 + h, n.tag, r1);
    NumPart(b, at + 18 + h + |n.tag|, 8, n.pending);
  }

  predicate PayloadsFit(ts: seq<Task>, n: nat)
    requires n <= |ts|
  {
    forall k :: 0 <= k < n ==> |ts[k].payload| < 0x1_0000_0000
  }

  predicate NamesFit(ns: seq<NodeInfo>, n: nat)
    requires n <= |ns|
  {
    forall k :: 0 <= k < n ==> |ns[k].host| < 0x1_0000_0000 && |ns[k].tag| < 0x1_0000_0000
  }

  lemma TasksOneMore(b: Bytes, at: nat, ts: seq<Task>, n: nat)
    requires n < |ts|
    ensures TasksAt(b, at, ts, n + 1) <==> TasksAt(b, at, ts, n) && TaskAt(b, at + TaskOffset(ts, n), ts[n])
    ensures PayloadsFit(ts, n + 1) <==> PayloadsFit(ts, n) && |ts[n].payload| < 0x1_0000_0000
  {
    hide TaskAt, TaskOffset;
  }

  lemma NodesOneMore(b: Bytes, at: nat, ns: seq<NodeInfo>, n: nat)
    requires n < |ns|
    ensures NodesAt(b, at, ns, n + 1) <==> NodesAt(b, at, ns, n) && NodeAt(b, at + NodeOffset(ns, n), ns[n])
    ensures NamesFit(ns, n + 1) <==>
            NamesFit(ns, n) && |ns[n].host| < 0x1_0000_0000 && |ns[n].tag| < 0x1_0000_0000
  {
    hide NodeAt, NodeOffset;
  }

  lemma NoTasks(b: Bytes, at: nat, ts: seq<Task>)
    ensures TasksBytes(ts[..0]) == [] && TasksAt(b, at, ts, 0) && PayloadsFit(ts, 0)
  {}

  lemma NoNodes(b: Bytes, at: nat, ns: seq<NodeInfo>)
    ensures NodesBytes(ns[..0]) == [] && NodesAt(b, at, ns, 0) && NamesFit(ns, 0)
  {}

  lemma {:induction false} TasksLayout(b: Bytes, at: nat, ts: seq<Task>, n: nat)
    requires n <= |ts|
    ensures |TasksBytes(ts[..n])| == TaskOffset(ts, n)
    ensures at <= |b| ==> (TasksAt(b, at, ts, n) <==> PayloadsFit(ts, n) && PartAt(b, at, TasksBytes(ts[..n])))
  {
    hide TaskAt, TaskBytes, TasksBytes, TasksAt, PayloadsFit;
    if n == 0 {
      NoTasks(b, at, ts);
    } else {
      hide PartAt;
      TasksLayout(b, at, ts, n - 1);
      TasksBytesStep(ts, n - 1);
      TaskLayout(b, at + TaskOffset(ts, n - 1), ts[n - 1]);
      PartAppend(b, at, TasksBytes(ts[..n - 1]), TaskBytes(ts[n - 1]));
      TasksOneMore(b, at, ts, n - 1);
    }
  }

  lemma {:induction false} NodesLayout(b: Bytes, at: nat, ns: seq<NodeInfo>, n: nat)
    requires n <= |ns|
    ensures |NodesBytes(ns[..n])| == NodeOffset(ns, n)
    ensures at <= |b| ==> (NodesAt(b, at, ns, n) <==> NamesFit(ns, n) && PartAt(b, at, NodesBytes(ns[..n])))
  {
    hide NodeAt, NodeBytes, NodesBytes, NodesAt, NamesFit;
    if n == 0 {
      NoNodes(b, at, ns);
    } else {
      hide PartAt;
      NodesLayout(b, at, ns, n - 1);
      NodesBytesStep(ns, n - 1);
      NodeLayout(b, at + NodeOffset(ns, n - 1), ns[n - 1]);
      PartAppend(b, at, NodesBytes(ns[..n - 1]), NodeBytes(ns[n - 1]));
      NodesOneMore(b, at, ns, n - 1);
    }
  }

  // ---------------------------------------------------------------- messages

  lemma RegisterLayout(b: Bytes, m: Msg)
    requires m.Register?
    ensures |Encoding(m)| == SizeOf(m)
    ensures LaidOut(b, m) <==> LengthsFit(m) && PartAt(b, 0, Encoding(m))
  {
    MessageConforms(m);
    Widths();
    hide LE, Pow256;
    var h := |m.host|;
    var r1 := Text(m.tag);
    var r2 := LE(m.numWorkers, 4) + r1;
    var r3 := LE(m.port, 2) + r2;
    assert Encoding(m) == Text(m.host) + r3;
    TextPart(b, 0, m.host);
    TextThen(b, 0, m.host, r3);
    NumThen(b, 4 + h, 2, m.port, r2);
    NumThen(b, 6 + h, 4, m.numWorkers, r1);
    TextPart(b, 10 + h, m.tag);
    hide NumAt, PartAt, TextAt, Text, Encoding;
  }

  lemma FixedLayout(b: Bytes, m: Msg)
    requires m.RegisterAck? || m.Heartbeat? || m.StealRequest? || m.TaskResult?
    ensures |Encoding(m)| == SizeOf(m)
    ensures LaidOut(b, m) <==> PartAt(b, 0, Encoding(m))
  {
    MessageConforms(m);
    Widths();
    hide LE, Pow256;
    match m
    case RegisterAck(id) =>
      assert Encoding(m) == LE(id, 4);
      NumPart(b, 0, 4, id);
    case Heartbeat(id, pending, completed) =>
      assert Encoding(m) == LE(id, 4) + (LE(pending, 8) + LE(completed, 8));
      NumThen(b, 0, 4, id, LE(pending, 8) + LE(completed, 8));
      NumThen(b, 4, 8, pending, LE(completed, 8));
      NumPart(b, 12, 8, completed);
      hide NumAt, PartAt, Encoding;
    case StealRequest(requester, maxTasks, preferred) =>
      assert Encoding(m) == LE(requester, 4) + (LE(maxTasks, 4) + LE(preferred, 2));
      NumThen(b, 0, 4, requester, LE(maxTasks, 4) + LE(preferred, 2));
      NumThen(b, 4, 4, maxTasks, LE(preferred, 2));
      NumPart(b, 8, 2, preferred);
      hide NumAt, PartAt, Encoding;
    case TaskResult(id, status) =>
      assert Encoding(m) == LE(id, 8) + LE(status, 4);
      NumThen(b, 0, 8, id, LE(status, 4));
      NumPart(b, 8, 4, status);
      hide NumAt, PartAt, Encoding;
  }

  lemma NodeListParts(m: Msg)
    requires m.NodeList?
    ensures Encoding(m) == LE(|m.nodes|, 4) + NodesBytes(m.nodes)
  {
    MessageConforms(m);
    NodesConform(m.nodes);
    hide LE, Pow256, EncAll, Fits, Conforms, LengthsFit;
  }

  lemma NodeListFits(m: Msg)
    requires m.NodeList?
    ensures LengthsFit(m) <==> |m.nodes| < 0x1_0000_0000 && NamesFit(m.nodes, |m.nodes|)
  {}

  lemma NodeListLayout(b: Bytes, m: Msg)
    requires m.NodeList?
    ensures |Encoding(m)| == SizeOf(m)
    ensures LaidOut(b, m) <==> LengthsFit(m) && PartAt(b, 0, Encoding(m))
  {
    hide LE, Pow256, NodesAt, Encoding, NodesBytes, NumAt, PartAt, LengthsFit, NamesFit, NodeOffset;
    var ns := m.nodes;
    NodeListParts(m);
    NodeListFits(m);
    Widths();
    assert ns[..|ns|] == ns;
    NodesLayout(b, 4, ns, |ns|);
    NumThen(b, 0, 4, |ns|, NodesBytes(ns));
  }

  lemma StealResponseParts(m: Msg)
    requires m.StealResponse?
    ensures Encoding(m) == LE(|m.tasks|, 4) + (TasksBytes(m.tasks) + LE(m.victimPending, 8))
  {
    MessageConforms(m);
    TasksConform(m.tasks);
    hide LE, Pow256, EncAll, Fits, Conforms, LengthsFit;
  }

  lemma StealResponseFits(m: Msg)
    requires m.StealResponse?
    ensures LengthsFit(m) <==> |m.tasks| < 0x1_0000_0000 && PayloadsFit(m.tasks, |m.tasks|)
  {}

  lemma StealResponseLayout(b: Bytes, m: Msg)
    requires m.StealResponse?
    ensures |Encoding(m)| == SizeOf(m)
    ensures LaidOut(b, m) <==> LengthsFit(m) && PartAt(b, 0, Encoding(m))
  {
    hide LE, Pow256, TasksAt, Encoding, TasksBytes, NumAt, PartAt, LengthsFit, PayloadsFit, TaskOffset;
    var ts, r1 := m.tasks, LE(m.victimPending, 8);
    StealResponseParts(m);
    StealResponseFits(m);
    Widths();
    assert ts[..|ts|] == ts;
    TasksLayout(b, 4, ts, |ts|);
    NumThen(b, 0, 4, |ts|, TasksBytes(ts) + r1);
    PartAppend(b, 4, TasksBytes(ts), r1);
    NumPart(b, 4 + |TasksBytes(ts)|, 8, m.victimPending);
  }

  /** A buffer starts with the encoding of a message exactly when every field is at its offset, and an
      encoding is as long as its fields. */
  lemma LayoutIff(b: Bytes, m: Msg)
    ensures |Encoding(m)| == SizeOf(m)
    ensures LengthsFit(m) && Encoding(m) <= b <==> LaidOut(b, m)
  {
    hide LaidOut, Encoding;
    match m
    case Register(_, _, _, _) => RegisterLayout(b, m);
    case NodeList(_) => NodeListLayout(b, m);
    case StealResponse(_, _) => StealResponseLayout(b, m);
    case _ => FixedLayout(b, m);
  }

  /** What an encoder produces is its message's fields, each at its offset, and nothing else. */
  lemma EncodingLaidOut(m: Msg)
    requires LengthsFit(m)
    ensures LaidOut(Encoding(m), m) && |Encoding(m)| == SizeOf(m)
  {
    LayoutIff(Encoding(m), m);
  }

  /** A decoder succeeds with `m` exactly on the buffers that hold the fields of `m` at their offsets. */
  lemma DecodesIffLaidOut(k: Kind, b: Bytes, m: Msg)
    ensures Decodes(k, b, m) <==> KindOf(m) == k && LaidOut(b, m)
  {
    MessageCanonical(k, b, m);
    LayoutIff(b, m);
    hide Decodes, LaidOut, Encoding, KindOf;
  }
}
