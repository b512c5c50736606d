/** The promises of the stream protocol, for every run of edge and agent with any number of streams. */
module TunnelTheorems {
  import opened Wrappers
  import opened Frames
  import opened Flow
  import E = Edge
  import A = Agent
  import opened EdgeRuns
  import opened Tunnel
  import opened TunnelRuns

  function Reached(limit: nat, window: nat, acts: seq<Action>): Sys {
    Exec(Start(limit, window), acts)
  }

  lemma ReachedOk(limit: nat, window: nat, acts: seq<Action>, i: nat)
    ensures SysInv(Reached(limit, window, acts))
    ensures Reached(limit, window, acts).edge.window == window
    ensures ViewOk(window, i, ViewOf(Reached(limit, window, acts), i))
    ensures LifeOk(window, E.At(Reached(limit, window, acts).edge, i))
  {
    StartOk(limit, window);
    ExecKeeps(Start(limit, window), acts);
    AtLifeOk(Reached(limit, window, acts).edge, i);
  }

  // ---- integrity ---------------------------------------------------------------------------

  /** Upload: what the agent puts into a request body is always a prefix of what was read from the
      public client; while it has the stream with its body open, nothing is missing but what is
      on the way; and a body it has completed is the whole client body. */
  lemma UploadIntegrity(limit: nat, window: nat, acts: seq<Action>, i: nat)
    ensures
      var s := Reached(limit, window, acts);
      var st := E.At(s.edge, i);
      var onTheWay := AgentHand(AgentLoopAt(s.agent.loop, i)) + Payload(Wire(s.down, i));
      && st.queued <= st.body
      && (i !in s.agent.streams ==> onTheWay == st.queued)
      && (i in s.agent.streams ==>
            var g := s.agent.streams[i];
            && Flatten(g.received) <= st.queued
            && (g.inTable && g.bodyOpen ==> Flatten(g.received) + onTheWay == st.queued)
            && (!g.bodyOpen ==> st.pump.Ended? && Flatten(g.received) == st.body))
  {
    ReachedOk(limit, window, acts, i);
    var s := Reached(limit, window, acts);
    var l := UpLane(ViewOf(s, i));
    assert LaneInv(window, l);
    assert l.delivered + (l.inHand + Payload(l.wire)) == l.delivered + l.inHand + Payload(l.wire);
    PrefixOfSum(l.delivered, l.inHand, l.queued);
    if i !in s.agent.streams {
      assert [] + l.inHand + Payload(l.wire) == l.inHand + Payload(l.wire);
    }
  }

  lemma PrefixOfSum(a: Bytes, b: Bytes, c: Bytes)
    requires a + b <= c
    ensures a <= c
  {
    assert a == (a + b)[..|a|] == c[..|a|];
  }

  /** Download: what a public body was handed is always a prefix of the local response; while the
      edge has the stream and has seen no End, nothing is missing but what is on the way; and a
      body that was handed a clean End holds the complete local response. */
  lemma DownloadIntegrity(limit: nat, window: nat, acts: seq<Action>, i: nat)
    ensures
      var s := Reached(limit, window, acts);
      var st := E.At(s.edge, i);
      var onTheWay := EdgeHand(EdgeLoopAt(s.edge.loop, i)) + Payload(Wire(s.up, i));
      && (i !in s.agent.streams ==> DataOf(st.handed) + onTheWay == [] && E.Chunk.End !in st.handed)
      && (i in s.agent.streams ==>
            var g := s.agent.streams[i];
            && DataOf(st.handed) <= g.sent <= g.body
            && (st.inTable && !st.endSeen ==> DataOf(st.handed) + onTheWay == g.sent)
            && (E.Chunk.End in st.handed ==>
                  g.pump.Ended? && (g.serve.Dropping? || g.serve.Finished?) && DataOf(st.handed) == g.body))
  {
    ReachedOk(limit, window, acts, i);
    EdgeBodyOk(limit, window, acts, i);
    DownloadOfView(window, i, ViewOf(Reached(limit, window, acts), i));
  }

  lemma EdgeBodyOk(limit: nat, window: nat, acts: seq<Action>, i: nat)
    ensures BodyOk(E.At(Reached(limit, window, acts).edge, i))
  {
    ReachedOk(limit, window, acts, i);
    var e := Reached(limit, window, acts).edge;
    if i in e.streams {
      assert StreamOk(window, e.streams[i]);
    }
  }

  lemma DownloadOfView(window: nat, i: nat, v: View)
    requires ViewOk(window, i, v) && BodyOk(v.st)
    ensures
      var onTheWay := EdgeHand(v.eloop) + Payload(v.up);
      && (v.ag.None? ==> DataOf(v.st.handed) + onTheWay == [] && E.Chunk.End !in v.st.handed)
      && (v.ag.Some? ==>
            var g := v.ag.value;
            && DataOf(v.st.handed) <= g.sent <= g.body
            && (v.st.closer.Untouched? && !v.st.endSeen ==> DataOf(v.st.handed) + onTheWay == g.sent)
            && (E.Chunk.End in v.st.handed ==>
                  g.pump.Ended? && (g.serve.Dropping? || g.serve.Finished?) && DataOf(v.st.handed) == g.body))
  {
    var l := DownLane(window, v);
    assert PumpOk(l) && Integrity(l);
    assert l.delivered + (l.inHand + Payload(l.wire)) == l.delivered + l.inHand + Payload(l.wire);
    PrefixOfSum(l.delivered, l.inHand, l.queued);
  }

  // ---- credit --------------------------------------------------------------------------------

  /** The parties to one stream are both still holding it and can still talk. */
  ghost predicate Live(s: Sys, i: nat) {
    && E.At(s.edge, i).inTable
    && (i in s.agent.streams ==> s.agent.streams[i].inTable)
    && s.edge.queueOpen && s.agent.queueOpen
  }

  /** Bytes of upload and upload credit that are queued, in transit or being handled. */
  function UploadInTransit(s: Sys, i: nat): nat {
    |Payload(Wire(s.down, i))| + |AgentHand(AgentLoopAt(s.agent.loop, i))| + AgentOwes(AgentLoopAt(s.agent.loop, i)) + Grants(Wire(s.up, i))
  }

  function DownloadInTransit(s: Sys, i: nat): nat {
    |Payload(Wire(s.up, i))| + |EdgeHand(EdgeLoopAt(s.edge.loop, i))| + EdgeOwes(EdgeLoopAt(s.edge.loop, i)) + Grants(Wire(s.down, i))
  }

  /** Credit is conserved in both directions while both sides hold the stream, and is never created. */
  lemma CreditConservation(limit: nat, window: nat, acts: seq<Action>, i: nat)
    ensures
      var s := Reached(limit, window, acts);
      var st := E.At(s.edge, i);
      && st.permits + InPump(st.pump) + UploadInTransit(s, i) <= window
      && (Live(s, i) ==> st.permits + InPump(st.pump) + UploadInTransit(s, i) == window)
      && (i in s.agent.streams ==>
            var g := s.agent.streams[i];
            && g.permits + InPump(g.pump) + DownloadInTransit(s, i) <= window
            && (Live(s, i) ==> g.permits + InPump(g.pump) + DownloadInTransit(s, i) == window))
  {
    ReachedOk(limit, window, acts, i);
    var v := ViewOf(Reached(limit, window, acts), i);
    assert Credit(window, UpLane(v));
    assert Credit(window, DownLane(window, v));
  }

  lemma {:induction false} GrantBound(wire: seq<Frame>, k: nat)
    requires k < |wire| && wire[k].WindowUpdate?
    ensures wire[k].increment <= Grants(wire)
  {
    if k > 0 {
      GrantBound(wire[1..], k - 1);
    }
  }

  lemma {:induction false} InWire(fifo: seq<Frame>, k: nat)
    requires k < |fifo|
    ensures fifo[k] in Wire(fifo, fifo[k].id)
  {
    if k > 0 {
      InWire(fifo[1..], k - 1);
    }
  }

  lemma {:induction false} FromWire(fifo: seq<Frame>, i: nat, f: Frame)
    requires f in Wire(fifo, i)
    ensures f in fifo && f.id == i
  {
    if f !in (if fifo[0].id == i then [fifo[0]] else []) {
      FromWire(fifo[1..], i, f);
    }
  }

  lemma DownGrantFits(limit: nat, window: nat, acts: seq<Action>, k: nat)
    ensures
      var s := Reached(limit, window, acts);
      k < |s.down| && s.down[k].WindowUpdate? ==> s.down[k].increment <= window
  {
    var s := Reached(limit, window, acts);
    if k < |s.down| && s.down[k].WindowUpdate? {
      DownloadTransitBound(limit, window, acts, s.down[k].id);
      WireGrantBound(s.down, k);
    }
  }

  lemma UpGrantFits(limit: nat, window: nat, acts: seq<Action>, k: nat)
    ensures
      var s := Reached(limit, window, acts);
      k < |s.up| && s.up[k].WindowUpdate? ==> s.up[k].increment <= window
  {
    var s := Reached(limit, window, acts);
    if k < |s.up| && s.up[k].WindowUpdate? {
      CreditConservation(limit, window, acts, s.up[k].id);
      WireGrantBound(s.up, k);
    }
  }

  lemma WireGrantBound(fifo: seq<Frame>, k: nat)
    requires k < |fifo| && fifo[k].WindowUpdate?
    ensures fifo[k].increment <= Grants(Wire(fifo, fifo[k].id))
  {
    InWire(fifo, k);
    var wire := Wire(fifo, fifo[k].id);
    var j :| 0 <= j < |wire| && wire[j] == fifo[k];
    GrantBound(wire, j);
  }

  /** Every increment on its way is at most the window, so a window that fits u32 keeps every
      conversion to u32 exact: what was buffered is what is granted. */
  lemma NoGrantSaturates(limit: nat, window: nat, acts: seq<Action>, k: nat)
    requires window <= 0xFFFF_FFFF
    ensures
      var s := Reached(limit, window, acts);
      && (k < |s.down| && s.down[k].WindowUpdate? ==> s.down[k].increment <= window)
      && (k < |s.up| && s.up[k].WindowUpdate? ==> s.up[k].increment <= window)
      && (s.agent.loop.Delivering? ==> ToU32(|s.agent.loop.payload|) == |s.agent.loop.payload| <= 65536)
      && (s.edge.loop.Delivering? && s.edge.loop.chunk.Data? ==>
            ToU32(|s.edge.loop.chunk.bytes|) == |s.edge.loop.chunk.bytes| <= 65536)
  {
    DownGrantFits(limit, window, acts, k);
    UpGrantFits(limit, window, acts, k);
    var s := Reached(limit, window, acts);
    if s.agent.loop.Delivering? {
      ReachedOk(limit, window, acts, s.agent.loop.id);
      assert WireOk(UpLane(ViewOf(s, s.agent.loop.id)));
    }
    if s.edge.loop.Delivering? {
      ReachedOk(limit, window, acts, s.edge.loop.id);
      assert WireOk(DownLane(window, ViewOf(s, s.edge.loop.id)));
    }
  }

  lemma {:induction false} PayloadWitness(wire: seq<Frame>)
    requires Payload(wire) != []
    ensures exists f :: f in wire && f.Data?
  {
    if wire[0].Data? {
      assert wire[0] in wire;
    } else {
      PayloadWitness(wire[1..]);
      var f :| f in wire[1..] && f.Data?;
      assert f in wire;
    }
  }

  lemma {:induction false} GrantWitness(wire: seq<Frame>)
    requires Grants(wire) > 0
    ensures exists f :: f in wire && f.WindowUpdate?
  {
    if wire[0].WindowUpdate? {
      assert wire[0] in wire;
    } else {
      GrantWitness(wire[1..]);
      var f :| f in wire[1..] && f.WindowUpdate?;
      assert f in wire;
    }
  }

  /** Some frame of the stream in one FIFO still carries payload, or one in the other still
      carries credit. */
  ghost predicate Moving(data: seq<Frame>, credit: seq<Frame>, i: nat) {
    || (exists f :: f in data && f.id == i && f.Data?)
    || (exists f :: f in credit && f.id == i && f.WindowUpdate?)
  }

  lemma MovingWitness(data: seq<Frame>, credit: seq<Frame>, i: nat)
    requires Payload(Wire(data, i)) != [] || Grants(Wire(credit, i)) > 0
    ensures Moving(data, credit, i)
  {
    if Payload(Wire(data, i)) != [] {
      PayloadWitness(Wire(data, i));
      var f :| f in Wire(data, i) && f.Data?;
      FromWire(data, i, f);
    } else {
      GrantWitness(Wire(credit, i));
      var f :| f in Wire(credit, i) && f.WindowUpdate?;
      FromWire(credit, i, f);
    }
  }

  ghost predicate Parked(pump: Pump, permits: nat) {
    pump.Sending? && pump.chunks != [] && permits < |pump.chunks[0]|
  }

  /** No credit is ever lost: with a window of at least one chunk, a sender that waits on a live
      stream has payload or credit on its way. */
  lemma NoLostCredit(limit: nat, window: nat, acts: seq<Action>, i: nat)
    requires window >= 65536
    ensures
      var s := Reached(limit, window, acts);
      Live(s, i) ==>
        && (Parked(E.At(s.edge, i).pump, E.At(s.edge, i).permits) ==>
              Moving(s.down, s.up, i) || A.HasId(AgentLoopAt(s.agent.loop, i)))
        && (i in s.agent.streams && Parked(s.agent.streams[i].pump, s.agent.streams[i].permits) ==>
              Moving(s.up, s.down, i) || E.HasId(EdgeLoopAt(s.edge.loop, i)))
  {
    ReachedOk(limit, window, acts, i);
    CreditConservation(limit, window, acts, i);
    var s := Reached(limit, window, acts);
    var v := ViewOf(s, i);
    if Live(s, i) && Parked(v.st.pump, v.st.permits) {
      assert PumpOk(UpLane(v));
      assert UploadInTransit(s, i) > 0;
      if !A.HasId(AgentLoopAt(s.agent.loop, i)) {
        MovingWitness(s.down, s.up, i);
      }
    }
    if Live(s, i) && i in s.agent.streams && Parked(s.agent.streams[i].pump, s.agent.streams[i].permits) {
      assert PumpOk(DownLane(window, v));
      assert DownloadInTransit(s, i) > 0;
      if !E.HasId(EdgeLoopAt(s.edge.loop, i)) {
        MovingWitness(s.up, s.down, i);
      }
    }
  }

  // ---- memory -----------------------------------------------------------------------------------

  /** What has left a channel, given everything ever put in and what is still there. */
  function Gone<T>(all: seq<T>, channel: seq<T>): seq<T> {
    if |channel| <= |all| then all[..|all| - |channel|] else []
  }

  /** A request body's channel never holds more than its frames can, and the rest has been taken. */
  lemma BodyChannelBound(g: A.AgentStream)
    requires AgentOk(g)
    ensures |g.channel| <= BODY_QUEUE && |Flatten(g.channel)| <= BODY_QUEUE * MAX_CHUNK
    ensures |Flatten(g.received)| == |Flatten(Gone(g.received, g.channel))| + |Flatten(g.channel)|
  {
    var pulled := Gone(g.received, g.channel);
    assert g.received == pulled + g.channel;
    FlattenSplit(pulled, g.channel);
    FlattenBound(g.channel);
  }

  lemma AgentStreamOk(limit: nat, window: nat, acts: seq<Action>, i: nat)
    requires i in Reached(limit, window, acts).agent.streams
    ensures AgentOk(Reached(limit, window, acts).agent.streams[i])
  {
    ReachedOk(limit, window, acts, i);
    assert ViewOk(window, i, ViewOf(Reached(limit, window, acts), i));
  }

  /** Upload: bytes underway are bounded by the window, bytes buffered by the channel, and so are
      the bytes that were queued and that the local service has not taken yet. */
  lemma BoundedUpload(limit: nat, window: nat, acts: seq<Action>, i: nat)
    ensures
      var s := Reached(limit, window, acts);
      var st := E.At(s.edge, i);
      && UploadInTransit(s, i) <= window
      && (i in s.agent.streams ==>
            var g := s.agent.streams[i];
            && |g.channel| <= 16 && |Flatten(g.channel)| <= 16 * 65536
            && (g.inTable && g.bodyOpen ==>
                  |st.queued| <= |Flatten(Gone(g.received, g.channel))| + window + 16 * 65536))
  {
    CreditConservation(limit, window, acts, i);
    UploadIntegrity(limit, window, acts, i);
    var s := Reached(limit, window, acts);
    if i in s.agent.streams {
      AgentStreamOk(limit, window, acts, i);
      BodyChannelBound(s.agent.streams[i]);
    }
  }

  /** A public body's channel never holds more than its frames can, and the rest has been taken. */
  lemma ChannelBound(st: E.EdgeStream)
    requires BodyOk(st) && SmallChunks(st.handed)
    ensures |st.channel| <= BODY_QUEUE && |DataOf(st.channel)| <= BODY_QUEUE * MAX_CHUNK
    ensures |DataOf(st.handed)| == |DataOf(Gone(st.handed, st.channel))| + |DataOf(st.channel)|
  {
    var taken := Gone(st.handed, st.channel);
    assert st.handed == taken + st.channel;
    DataOfSplit(taken, st.channel);
    DataOfBound(st.channel);
  }

  lemma DownloadTransitBound(limit: nat, window: nat, acts: seq<Action>, i: nat)
    ensures DownloadInTransit(Reached(limit, window, acts), i) <= window
    ensures SmallChunks(E.At(Reached(limit, window, acts).edge, i).handed)
  {
    ReachedOk(limit, window, acts, i);
    assert Credit(window, DownLane(window, ViewOf(Reached(limit, window, acts), i)));
  }

  /** Download, likewise. */
  lemma BoundedDownload(limit: nat, window: nat, acts: seq<Action>, i: nat)
    ensures
      var s := Reached(limit, window, acts);
      var st := E.At(s.edge, i);
      && DownloadInTransit(s, i) <= window
      && |st.channel| <= 16 && |DataOf(st.channel)| <= 16 * 65536
      && (i in s.agent.streams && st.inTable && !st.endSeen ==>
            |s.agent.streams[i].sent| <= |DataOf(Gone(st.handed, st.channel))| + window + 16 * 65536)
  {
    DownloadTransitBound(limit, window, acts, i);
    EdgeBodyOk(limit, window, acts, i);
    ChannelBound(E.At(Reached(limit, window, acts).edge, i));
    DownloadIntegrity(limit, window, acts, i);
  }

  lemma {:induction false} DataOfSplit(a: seq<E.Chunk>, b: seq<E.Chunk>)
    ensures DataOf(a + b) == DataOf(a) + DataOf(b)
  {
    if a == [] {
      assert a + b == b;
    } else {
      assert (a + b)[1..] == a[1..] + b;
      DataOfSplit(a[1..], b);
    }
  }

  lemma {:induction false} DataOfBound(handed: seq<E.Chunk>)
    requires SmallChunks(handed)
    ensures |DataOf(handed)| <= |handed| * MAX_CHUNK
  {
    if handed != [] {
      DataOfBound(handed[1..]);
    }
  }

  // ---- the window must hold a chunk ----------------------------------------------------------------

  lemma {:induction false} ExecThen(s: Sys, acts: seq<Action>, act: Action)
    ensures Exec(s, acts + [act]) == Next(Exec(s, acts), act)
    decreases |acts|
  {
    if acts == [] {
      assert [] + [act] == [act];
      assert [act][1..] == [];
    } else {
      assert (acts + [act])[1..] == acts[1..] + [act];
      ExecThen(Next(s, acts[0]), acts[1..], act);
    }
  }

  /** One more step of a run. */
  lemma Further(window: nat, acts: seq<Action>, s: Sys, act: Action, s': Sys)
    requires Reached(0, window, acts) == s && Next(s, act) == s'
    ensures Reached(0, window, acts + [act]) == s'
  {
    ExecThen(Start(0, window), acts, act);
  }

  /** The state in which a stream has been opened and its Open is on the way. */
  function Announced(window: nat): Sys {
    var st := E.Fresh(window).(handler := E.Waiting, announced := true, inTable := true);
    Sys(E.Edge(0, window, 2, 1, 0, map[1 := st], E.Ready, true), A.Init(), [Frame.Open(1, window)], [])
  }

  /** And the one in which both sides hold it. */
  function Joined(window: nat): Sys {
    Announced(window).(agent := A.Agent(map[1 := A.Register(window)], A.Ready, true), down := [])
  }

  lemma AnnouncedIsReached(window: nat) returns (acts: seq<Action>)
    ensures Reached(0, window, acts) == Announced(window)
  {
    var s0 := Start(0, window);
    var s1 := Next(s0, EdgeActs(E.Admit));
    var s2 := Next(s1, EdgeActs(E.Allocate));
    var s3 := Next(s2, EdgeActs(E.Do(1, E.Handle(E.Insert))));
    var s4 := Next(s3, EdgeActs(E.Count(1)));
    Further(window, [], s0, EdgeActs(E.Admit), s1);
    acts := [] + [EdgeActs(E.Admit)];
    Further(window, acts, s1, EdgeActs(E.Allocate), s2);
    acts := acts + [EdgeActs(E.Allocate)];
    Further(window, acts, s2, EdgeActs(E.Do(1, E.Handle(E.Insert))), s3);
    acts := acts + [EdgeActs(E.Do(1, E.Handle(E.Insert)))];
    Further(window, acts, s3, EdgeActs(E.Count(1)), s4);
    acts := acts + [EdgeActs(E.Count(1))];
    AnnouncedNext(window, s4);
    Further(window, acts, s4, EdgeActs(E.Do(1, E.Handle(E.SendOpen))), Announced(window));
    acts := acts + [EdgeActs(E.Do(1, E.Handle(E.SendOpen)))];
  }

  lemma AnnouncedNext(window: nat, s: Sys)
    requires s == Sys(E.Edge(0, window, 2, 1, 0, map[1 := E.Fresh(window).(handler := E.Counted, inTable := true)], E.Ready, true), A.Init(), [], [])
    ensures Next(s, EdgeActs(E.Do(1, E.Handle(E.SendOpen)))) == Announced(window)
  {
    assert Next(s, EdgeActs(E.Do(1, E.Handle(E.SendOpen)))).edge.streams == Announced(window).edge.streams;
  }

  lemma JoinedIsReached(window: nat) returns (acts: seq<Action>)
    ensures Reached(0, window, acts) == Joined(window)
  {
    acts := AnnouncedIsReached(window);
    var s := Next(Announced(window), AgentReads);
    assert s.agent.streams == Joined(window).agent.streams && s.down == [];
    Further(window, acts, Announced(window), AgentReads, Joined(window));
    acts := acts + [AgentReads];
  }

  /** The edge's task has then read `payload` from the client. */
  function Uploading(window: nat, payload: Bytes): Sys {
    var s := Joined(window);
    var st := s.edge.streams[1].(pump := Sending(Cut(payload)), body := payload);
    s.(edge := s.edge.(streams := map[1 := st]))
  }

  lemma UploadStarts(window: nat, payload: Bytes) returns (acts: seq<Action>)
    requires payload != []
    ensures Reached(0, window, acts) == Uploading(window, payload)
  {
    acts := JoinedIsReached(window);
    var act := EdgeActs(E.Do(1, E.Upload(E.ReadBody(payload))));
    assert [] + payload == payload;
    assert Next(Joined(window), act).edge.streams == Uploading(window, payload).edge.streams;
    assert Next(Joined(window), act).down == [] + [];
    Further(window, acts, Joined(window), act, Uploading(window, payload));
    acts := acts + [act];
  }

  /** Or the agent's task has queued a head and read `payload` from the local service. */
  function Downloading(window: nat, payload: Bytes): Sys {
    var s := Joined(window);
    var g := A.Register(window).(serve := A.Responding, pump := Sending(Cut(payload)), body := payload);
    s.(agent := s.agent.(streams := map[1 := g]), up := [Frame.ResponseHead(1)])
  }

  function Answering(window: nat, serve: A.Serve, up: seq<Frame>): Sys {
    var s := Joined(window);
    s.(agent := s.agent.(streams := map[1 := A.Register(window).(serve := serve)]), up := up)
  }

  lemma AnswerSteps(window: nat)
    ensures Next(Joined(window), AgentActs(A.Do(1, A.LocalAnswers))) == Answering(window, A.HeadReady, [])
    ensures Next(Answering(window, A.HeadReady, []), AgentActs(A.Do(1, A.SendHead)))
      == Answering(window, A.Responding, [Frame.ResponseHead(1)])
  {
    var s1 := Next(Joined(window), AgentActs(A.Do(1, A.LocalAnswers)));
    assert s1.agent.streams == Answering(window, A.HeadReady, []).agent.streams;
    var s2 := Next(Answering(window, A.HeadReady, []), AgentActs(A.Do(1, A.SendHead)));
    assert s2.agent.streams == Answering(window, A.Responding, [Frame.ResponseHead(1)]).agent.streams;
    assert [] + [Frame.ResponseHead(1)] == [Frame.ResponseHead(1)];
  }

  lemma DownloadStarts(window: nat, payload: Bytes) returns (acts: seq<Action>)
    requires payload != []
    ensures Reached(0, window, acts) == Downloading(window, payload)
  {
    acts := JoinedIsReached(window);
    AnswerSteps(window);
    Further(window, acts, Joined(window), AgentActs(A.Do(1, A.LocalAnswers)), Answering(window, A.HeadReady, []));
    acts := acts + [AgentActs(A.Do(1, A.LocalAnswers))];
    var s := Answering(window, A.Responding, [Frame.ResponseHead(1)]);
    Further(window, acts, Answering(window, A.HeadReady, []), AgentActs(A.Do(1, A.SendHead)), s);
    acts := acts + [AgentActs(A.Do(1, A.SendHead))];
    var act := AgentActs(A.Do(1, A.ReadLocal(payload)));
    ReadsLocal(window, payload, s);
    Further(window, acts, s, act, Downloading(window, payload));
    acts := acts + [act];
  }

  lemma ReadsLocal(window: nat, payload: Bytes, s: Sys)
    requires payload != [] && s == Answering(window, A.Responding, [Frame.ResponseHead(1)])
    ensures Next(s, AgentActs(A.Do(1, A.ReadLocal(payload)))) == Downloading(window, payload)
  {
    assert [] + payload == payload;
    assert Next(s, AgentActs(A.Do(1, A.ReadLocal(payload)))).agent.streams == Downloading(window, payload).agent.streams;
    assert s.up + [] == s.up;
  }

  /** Both sides hold the stream, and one waits for credit although nothing of the stream is moving
      that could bring it any. */
  ghost predicate UploadStalled(s: Sys, i: nat) {
    && Live(s, i) && i in s.agent.streams
    && Parked(E.At(s.edge, i).pump, E.At(s.edge, i).permits)
    && !Moving(s.down, s.up, i) && !A.HasId(AgentLoopAt(s.agent.loop, i))
  }

  ghost predicate DownloadStalled(s: Sys, i: nat) {
    && Live(s, i) && i in s.agent.streams
    && Parked(s.agent.streams[i].pump, s.agent.streams[i].permits)
    && !Moving(s.up, s.down, i) && !E.HasId(EdgeLoopAt(s.edge.loop, i))
  }

  lemma LargeChunkStalls(window: nat)
    requires window < 65536
    ensures exists limit: nat, acts, i: nat :: UploadStalled(Reached(limit, window, acts), i)
    ensures exists limit: nat, acts, i: nat :: DownloadStalled(Reached(limit, window, acts), i)
  {
    var payload := seq(window + 1, _ => 0 as byte);
    assert Cut(payload) == [payload];
    var up := UploadStarts(window, payload);
    assert UploadStalled(Uploading(window, payload), 1);
    assert UploadStalled(Reached(0, window, up), 1);
    var down := DownloadStarts(window, payload);
    assert DownloadStalled(Downloading(window, payload), 1);
    assert DownloadStalled(Reached(0, window, down), 1);
  }

  /** In either direction a transfer can stall if and only if the window is smaller than a chunk;
      the configuration does not rule that out. */
  lemma StallsExactlyBelowChunk(window: nat)
    ensures (exists limit: nat, acts, i: nat :: UploadStalled(Reached(limit, window, acts), i)) <==> window < 65536
    ensures (exists limit: nat, acts, i: nat :: DownloadStalled(Reached(limit, window, acts), i)) <==> window < 65536
  {
    if window >= MAX_CHUNK {
      forall limit: nat, acts, i: nat
        ensures !UploadStalled(Reached(limit, window, acts), i)
        ensures !DownloadStalled(Reached(limit, window, acts), i)
      {
        NoLostCredit(limit, window, acts, i);
      }
    } else {
      LargeChunkStalls(window);
    }
  }

  /** And then it waits for good: a chunk larger than the window is never given credit. */
  lemma OversizedChunkWaits(limit: nat, window: nat, acts: seq<Action>, i: nat)
    ensures
      var s := Reached(limit, window, acts);
      var st := E.At(s.edge, i);
      && (st.pump.Sending? && st.pump.chunks != [] && |st.pump.chunks[0]| > window ==>
            E.LocalMove(i, window, s.edge.queueOpen, st, E.Upload(E.TakeCredit)).None?)
      && (i in s.agent.streams ==>
            var g := s.agent.streams[i];
            g.pump.Sending? && g.pump.chunks != [] && |g.pump.chunks[0]| > window ==>
              A.LocalMove(i, s.agent.queueOpen, g, A.TakeCredit).None?)
  {
    CreditConservation(limit, window, acts, i);
  }

  // ---- order of frames ---------------------------------------------------------------------------

  lemma {:induction false} WireSplit(a: seq<Frame>, b: seq<Frame>, i: nat)
    ensures Wire(a + b, i) == Wire(a, i) + Wire(b, i)
  {
    if a == [] {
      assert a + b == b;
    } else {
      assert (a + b)[1..] == a[1..] + b;
      WireSplit(a[1..], b, i);
    }
  }

  /** The position in the wire of a frame of the FIFO. */
  function Rank(fifo: seq<Frame>, k: nat): nat
    requires k < |fifo|
  {
    |Wire(fifo[..k], fifo[k].id)|
  }

  lemma RankFinds(fifo: seq<Frame>, k: nat)
    requires k < |fifo|
    ensures Rank(fifo, k) < |Wire(fifo, fifo[k].id)| && Wire(fifo, fifo[k].id)[Rank(fifo, k)] == fifo[k]
  {
    var i := fifo[k].id;
    assert fifo == fifo[..k] + fifo[k..];
    WireSplit(fifo[..k], fifo[k..], i);
    WireTaken(fifo[k..], i);
  }

  lemma RankOrders(fifo: seq<Frame>, j: nat, k: nat)
    requires j < k < |fifo| && fifo[j].id == fifo[k].id
    ensures Rank(fifo, j) < Rank(fifo, k)
  {
    var i := fifo[k].id;
    assert fifo[..k] == fifo[..j] + fifo[j..k];
    WireSplit(fifo[..j], fifo[j..k], i);
    assert fifo[j..k][0] == fifo[j];
    WireTaken(fifo[j..k], i);
  }

  /** No Data and no second End follows an End, in either direction. */
  lemma NothingFollowsEnd(limit: nat, window: nat, acts: seq<Action>, j: nat, k: nat)
    ensures
      var s := Reached(limit, window, acts);
      && (j < k < |s.down| && s.down[j].End? && s.down[k].id == s.down[j].id ==> !s.down[k].Data? && !s.down[k].End?)
      && (j < k < |s.up| && s.up[j].End? && s.up[k].id == s.up[j].id ==> !s.up[k].Data? && !s.up[k].End?)
  {
    var s := Reached(limit, window, acts);
    if j < k < |s.down| && s.down[j].End? && s.down[k].id == s.down[j].id {
      ReachedOk(limit, window, acts, s.down[j].id);
      assert WireOk(UpLane(ViewOf(s, s.down[j].id)));
      RankFinds(s.down, j);
      RankFinds(s.down, k);
      RankOrders(s.down, j, k);
    }
    if j < k < |s.up| && s.up[j].End? && s.up[k].id == s.up[j].id {
      ReachedOk(limit, window, acts, s.up[j].id);
      assert WireOk(DownLane(window, ViewOf(s, s.up[j].id)));
      RankFinds(s.up, j);
      RankFinds(s.up, k);
      RankOrders(s.up, j, k);
    }
  }

  /** Open comes before everything else of its stream and only once: a frame the agent reads is an
      Open for a stream it has never heard of, or it is for a stream it knows; and what the edge
      reads is never an Open. */
  lemma OpenComesFirst(limit: nat, window: nat, acts: seq<Action>, k: nat)
    ensures
      var s := Reached(limit, window, acts);
      && (k < |s.down| && s.down[k].Open? ==> s.down[k].id !in s.agent.streams && s.down[k].window == window)
      && (k < |s.down| && !s.down[k].Open? && s.down[k].id !in s.agent.streams ==>
            exists j :: 0 <= j < k && s.down[j] == Frame.Open(s.down[k].id, window))
      && (k < |s.up| ==> !s.up[k].Open? && s.up[k].id in s.agent.streams)
  {
    var s := Reached(limit, window, acts);
    if k < |s.down| {
      var i := s.down[k].id;
      ReachedOk(limit, window, acts, i);
      assert Linked(window, i, ViewOf(s, i));
      RankFinds(s.down, k);
      if !s.down[k].Open? && i !in s.agent.streams {
        assert Rank(s.down, k) > 0;
        assert Wire(s.down, i)[0] == Frame.Open(i, window);
        FirstInWire(s.down, k);
      }
    }
    if k < |s.up| {
      var i := s.up[k].id;
      ReachedOk(limit, window, acts, i);
      assert Linked(window, i, ViewOf(s, i));
      RankFinds(s.up, k);
    }
  }

  lemma EarlierFrame(fifo: seq<Frame>, k: nat, i: nat, f: Frame)
    requires k <= |fifo| && f in Wire(fifo[..k], i)
    ensures exists j :: 0 <= j < k && fifo[j] == f
  {
    FromWire(fifo[..k], i, f);
    var j :| 0 <= j < k && fifo[..k][j] == f;
    assert fifo[j] == f;
  }

  lemma FirstInWire(fifo: seq<Frame>, k: nat)
    requires k < |fifo| && Rank(fifo, k) > 0
    ensures Wire(fifo, fifo[k].id) != []
    ensures exists j :: 0 <= j < k && fifo[j] == Wire(fifo, fifo[k].id)[0]
  {
    var i := fifo[k].id;
    Halves(fifo, k);
    FirstOfJoined(fifo, fifo[..k], fifo[k..], i);
    EarlierFrame(fifo, k, i, Wire(fifo[..k], i)[0]);
  }

  lemma Halves(fifo: seq<Frame>, k: nat)
    requires k <= |fifo|
    ensures fifo == fifo[..k] + fifo[k..]
  {
  }

  lemma FirstOfJoined(fifo: seq<Frame>, a: seq<Frame>, b: seq<Frame>, i: nat)
    requires fifo == a + b && Wire(a, i) != []
    ensures Wire(fifo, i) != [] && Wire(fifo, i)[0] == Wire(a, i)[0]
  {
    WireSplit(a, b, i);
  }

  // ---- the edge of the system is an edge run ---------------------------------------------------------

  /** What the edge experiences in a run of the system. */
  function EdgeInputs(s: Sys, acts: seq<Action>): seq<Input>
    decreases |acts|
  {
    if acts == [] then []
    else
      (match acts[0]
       case EdgeActs(a) => [Act(a)]
       case EdgeReads => if s.edge.loop.Ready? && s.up != [] && !s.up[0].Open? then [Arrives(s.up[0])] else []
       case _ => []) + EdgeInputs(Next(s, acts[0]), acts[1..])
  }

  /** So everything proved of the edge against an arbitrary agent, in EdgeRuns and EdgeCounting,
      holds in the system. */
  lemma {:induction false} SystemEdgeIsARun(s: Sys, acts: seq<Action>)
    ensures Exec(s, acts).edge == Run(s.edge, EdgeInputs(s, acts))
    decreases |acts|
  {
    if acts != [] {
      var rest := EdgeInputs(Next(s, acts[0]), acts[1..]);
      SystemEdgeIsARun(Next(s, acts[0]), acts[1..]);
      match acts[0] {
        case EdgeActs(a) => RunStep(s.edge, Act(a), rest);
        case EdgeReads =>
          if s.edge.loop.Ready? && s.up != [] && !s.up[0].Open? {
            RunStep(s.edge, Arrives(s.up[0]), rest);
          } else {
            assert [] + rest == rest;
          }
        case _ => assert [] + rest == rest;
      }
    }
  }
}
