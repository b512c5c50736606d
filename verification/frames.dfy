/** The frames that two peers of a session exchange about streams, and how one stream's
    share is read off a FIFO that all streams use together. */
module Frames {

  /** Largest payload either side puts into one Data frame. */
  const MAX_CHUNK: nat := 64 * 1024

  /** Frames a body channel buffers before its sender has to wait. */
  const BODY_QUEUE: nat := 16

  /** Numbers that fit the u32 fields of WindowUpdate and StreamOpen. */
  const U32_MAX: nat := 0xFFFF_FFFF

  newtype byte = x: int | 0 <= x < 256

  type Bytes = seq<byte>

  /** The stream frames of both directions. ServerFrame carries all but ResponseHead in
      practice; ClientFrame never carries Open. */
  datatype Frame =
    | Open(id: nat, window: nat)
    | ResponseHead(id: nat)
    | Data(id: nat, payload: Bytes)
    | End(id: nat)
    | Reset(id: nat)
    | WindowUpdate(id: nat, increment: nat)

  type ClientFrame = f: Frame | !f.Open? witness Frame.End(0)

  /** `u32::try_from(n).unwrap_or(u32::MAX)`. */
  function ToU32(n: nat): nat {
    if n <= U32_MAX then n else U32_MAX
  }

  // ---- one stream's part of a FIFO -------------------------------------------------

  /** The frames of stream `i`, in the order in which they were queued. */
  function Wire(fifo: seq<Frame>, i: nat): seq<Frame> {
    if fifo == [] then []
    else (if fifo[0].id == i then [fifo[0]] else []) + Wire(fifo[1..], i)
  }

  lemma {:induction false} WireAppend(fifo: seq<Frame>, f: Frame, i: nat)
    ensures Wire(fifo + [f], i) == Wire(fifo, i) + (if f.id == i then [f] else [])
  {
    var last := if f.id == i then [f] else [];
    if fifo == [] {
      assert fifo + [f] == [f];
      assert [f][1..] == [];
      assert last + [] == [] + last;
    } else {
      var first, more := if fifo[0].id == i then [fifo[0]] else [], Wire(fifo[1..], i);
      assert (fifo + [f])[1..] == fifo[1..] + [f];
      WireAppend(fifo[1..], f, i);
      assert Wire(fifo + [f], i) == first + (more + last);
      assert first + (more + last) == (first + more) + last;
    }
  }

  /** Payload bytes a wire still carries. */
  function Payload(wire: seq<Frame>): Bytes {
    if wire == [] then []
    else (if wire[0].Data? then wire[0].payload else []) + Payload(wire[1..])
  }

  lemma {:induction false} PayloadAppend(wire: seq<Frame>, f: Frame)
    ensures Payload(wire + [f]) == Payload(wire) + (if f.Data? then f.payload else [])
  {
    var last := if f.Data? then f.payload else [];
    if wire == [] {
      assert wire + [f] == [f];
      assert [f][1..] == [];
      assert last + [] == [] + last;
    } else {
      var first, more := if wire[0].Data? then wire[0].payload else [], Payload(wire[1..]);
      assert (wire + [f])[1..] == wire[1..] + [f];
      PayloadAppend(wire[1..], f);
      assert Payload(wire + [f]) == first + (more + last);
      assert first + (more + last) == (first + more) + last;
    }
  }

  ghost predicate NoData(wire: seq<Frame>) {
    forall k | 0 <= k < |wire| :: !wire[k].Data?
  }

  lemma {:induction false} NoDataNoPayload(wire: seq<Frame>)
    requires NoData(wire)
    ensures Payload(wire) == []
  {
    if wire != [] {
      NoDataNoPayload(wire[1..]);
    }
  }

  /** Credit that the WindowUpdates of a wire will grant. */
  function Grants(wire: seq<Frame>): nat {
    if wire == [] then 0
    else (if wire[0].WindowUpdate? then wire[0].increment else 0) + Grants(wire[1..])
  }

  lemma {:induction false} GrantsAppend(wire: seq<Frame>, f: Frame)
    ensures Grants(wire + [f]) == Grants(wire) + (if f.WindowUpdate? then f.increment else 0)
  {
    if wire == [] {
      assert wire + [f] == [f];
      assert [f][1..] == [];
    } else {
      assert (wire + [f])[1..] == wire[1..] + [f];
      GrantsAppend(wire[1..], f);
    }
  }

  ghost predicate HasEnd(wire: seq<Frame>) {
    exists k | 0 <= k < |wire| :: wire[k].End?
  }

  /** Neither Data nor a second End follows an End. */
  ghost predicate EndClean(wire: seq<Frame>) {
    forall j, k | 0 <= j < k < |wire| && wire[j].End? :: !wire[k].Data? && !wire[k].End?
  }

  ghost predicate NoOpen(wire: seq<Frame>) {
    forall k | 0 <= k < |wire| :: !wire[k].Open?
  }

  /** Every Data frame is nonempty and no larger than a chunk. */
  ghost predicate Sized(wire: seq<Frame>) {
    forall k | 0 <= k < |wire| && wire[k].Data? :: 0 < |wire[k].payload| <= MAX_CHUNK
  }

  // ---- chunking --------------------------------------------------------------------

  function Flatten(chunks: seq<Bytes>): Bytes {
    if chunks == [] then [] else chunks[0] + Flatten(chunks[1..])
  }

  lemma {:induction false} FlattenAppend(chunks: seq<Bytes>, c: Bytes)
    ensures Flatten(chunks + [c]) == Flatten(chunks) + c
  {
    if chunks == [] {
      assert chunks + [c] == [c];
      assert [c][1..] == [];
    } else {
      assert (chunks + [c])[1..] == chunks[1..] + [c];
      FlattenAppend(chunks[1..], c);
    }
  }

  lemma {:induction false} FlattenSplit(a: seq<Bytes>, b: seq<Bytes>)
    ensures Flatten(a + b) == Flatten(a) + Flatten(b)
  {
    if a == [] {
      assert a + b == b;
    } else {
      assert (a + b)[1..] == a[1..] + b;
      FlattenSplit(a[1..], b);
    }
  }

  ghost predicate Chunked(chunks: seq<Bytes>) {
    forall k | 0 <= k < |chunks| :: 0 < |chunks[k]| <= MAX_CHUNK
  }

  /** The chunks of a payload: full ones, and the rest last. */
  function Cut(payload: Bytes): (chunks: seq<Bytes>)
    ensures Chunked(chunks)
    ensures Flatten(chunks) == payload
    ensures chunks == [] <==> payload == []
    decreases |payload|
  {
    if payload == [] then []
    else if |payload| <= MAX_CHUNK then
      assert Flatten([payload]) == payload + Flatten([payload][1..]);
      [payload]
    else
      var head, rest := payload[..MAX_CHUNK], payload[MAX_CHUNK..];
      assert ([head] + Cut(rest))[1..] == Cut(rest);
      [head] + Cut(rest)
  }

  lemma {:induction false} FlattenBound(chunks: seq<Bytes>)
    requires forall k | 0 <= k < |chunks| :: |chunks[k]| <= MAX_CHUNK
    ensures |Flatten(chunks)| <= |chunks| * MAX_CHUNK
  {
    if chunks != [] {
      FlattenBound(chunks[1..]);
    }
  }

  /** The frames `split_chunks` makes of a payload: its chunks, or one empty frame. */
  function Pieces(payload: Bytes): (chunks: seq<Bytes>)
    ensures chunks != [] && Flatten(chunks) == payload
  {
    if payload == [] then
      assert Flatten([payload]) == payload + Flatten([payload][1..]);
      [payload]
    else Cut(payload)
  }

  /** `split_chunks`: the loop takes full frames off the front until at most one frame is left.
      An empty payload is one empty frame; every other payload is cut as `Cut` says. */
  method SplitChunks(payload: Bytes) returns (chunks: seq<Bytes>)
    ensures chunks == Pieces(payload)
  {
    if |payload| <= MAX_CHUNK {
      return [payload];
    }
    chunks := [];
    var rest := payload;
    while |rest| > MAX_CHUNK
      invariant rest != []
      invariant Cut(payload) == chunks + Cut(rest)
    {
      assert Cut(rest) == [rest[..MAX_CHUNK]] + Cut(rest[MAX_CHUNK..]);
      chunks := chunks + [rest[..MAX_CHUNK]];
      rest := rest[MAX_CHUNK..];
    }
    chunks := chunks + [rest];
  }

  /** The cutting loop of the agent's `send_payload`: with credit and an open queue throughout,
      the frames queued are exactly the chunks of the payload, none for an empty payload. */
  method CutPayload(payload: Bytes) returns (chunks: seq<Bytes>)
    ensures chunks == Cut(payload)
  {
    chunks := [];
    var rest := payload;
    while rest != []
      invariant Cut(payload) == chunks + Cut(rest)
      decreases |rest|
    {
      var take := if |rest| <= MAX_CHUNK then |rest| else MAX_CHUNK;
      assert Cut(rest) == [rest[..take]] + Cut(rest[take..]) by {
        if |rest| <= MAX_CHUNK {
          assert rest[..take] == rest && rest[take..] == [];
        }
      }
      chunks := chunks + [rest[..take]];
      rest := rest[take..];
    }
  }

  // ---- the frames of a payload -----------------------------------------------------------

  function DataFrames(id: nat, chunks: seq<Bytes>): seq<Frame> {
    seq(|chunks|, k requires 0 <= k < |chunks| => Frame.Data(id, chunks[k]))
  }

  lemma FramesNext(q: seq<Frame>, id: nat, cs: seq<Bytes>, k: nat)
    requires k < |cs|
    ensures q + DataFrames(id, cs[..k]) + [Frame.Data(id, cs[k])] == q + DataFrames(id, cs[..k + 1])
  {
  }
}
