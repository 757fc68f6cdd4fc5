/**
 * The receive side of tunnel.Channel (backend/tunnel/channel.go): the handler registry and the
 * reassembly buffers it owns, as one state machine whose actions are the critical sections of
 * ch.mu. The properties hold over every run of those actions, in any interleaving.
 */
module Reassembly {
  import opened Bytes
  import opened ChannelWire

  const UINT64_SPAN: nat := 0x1_0000_0000_0000_0000
  const CAP: nat := DEFAULT_MAX_MESSAGE_SIZE
  const MAX_LIVE: nat := DEFAULT_MAX_INCOMPLETE_CHUNKED

  /**
   * `closed` is the flag Close swaps before it takes the lock; `drained` records that the locked
   * part of Close has emptied the maps.
   */
  datatype Rx = Rx(lastReqId: nat, pending: set<nat>, streams: set<nat>, bufs: map<nat, Buf>, closed: bool, drained: bool)
  {
    function Handlers(): set<nat>
    {
      pending + streams
    }

    function Live(): set<nat>
    {
      LiveIds(bufs)
    }
  }

  const OPENED: Rx := Rx(0, {}, {}, map[], false, false)

  datatype Outcome = Buffered | DropUnknownId | DropBadFlags | TooManyIncomplete | Oversize | Deliver(payload: bytes)
  {
    /** The outcomes that make reassemble fail the request with RESOURCE_EXHAUSTED. */
    predicate TooLarge()
    {
      TooManyIncomplete? || Oversize?
    }
  }

  // ----- One inbound chunk -----

  function Drop(s: Rx, id: nat): Rx
  {
    s.(bufs := s.bufs - {id})
  }

  function Put(s: Rx, id: nat, b: Buf): Rx
  {
    s.(bufs := s.bufs[id := b])
  }

  /** reassembleLocked. */
  function Reassemble(s: Rx, id: nat, more: bool, data: bytes): (Rx, Outcome)
  {
    if id in s.bufs && s.bufs[id].poisoned then
      (if more then s else Drop(s, id), Buffered)
    else if more then
      if id !in s.bufs && id !in s.Handlers() then (s, DropUnknownId)
      else if id !in s.bufs && |s.Live()| >= MAX_LIVE then (Put(s, id, TOMBSTONE), TooManyIncomplete)
      else
        var b := Extend(if id in s.bufs then s.bufs[id] else EMPTY_BUF, data);
        if b.total > CAP then (Put(s, id, TOMBSTONE), Oversize) else (Put(s, id, b), Buffered)
    else if id !in s.bufs then
      (s, if |data| > CAP then Oversize else Deliver(data))
    else
      var b := Extend(s.bufs[id], data);
      (Drop(s, id), if b.total > CAP then Oversize else Deliver(Concat(b.parts)))
  }

  // ----- The other critical sections -----

  /** The id `steps` increments of the 64-bit counter after `from`. */
  function Ahead(from: nat, steps: nat): nat
  {
    (from + steps) % UINT64_SPAN
  }

  /** allocateReqIDLocked's result: the first nonzero id after `from`, cyclically, that nobody handles. */
  ghost predicate FirstFree(from: nat, handlers: set<nat>, id: nat)
  {
    && id != 0 && id !in handlers
    && exists steps: nat :: steps >= 1 && id == Ahead(from, steps)
         && forall j :: 1 <= j < steps ==> Ahead(from, j) == 0 || Ahead(from, j) in handlers
  }

  function Register(s: Rx, id: nat, response: bool, stream: bool): Rx
  {
    s.(lastReqId := id,
       pending := if response then s.pending + {id} else s.pending,
       streams := if stream then s.streams + {id} else s.streams)
  }

  function Unregister(s: Rx, id: nat, response: bool, stream: bool): Rx
  {
    var t := s.(pending := if response then s.pending - {id} else s.pending,
                streams := if stream then s.streams - {id} else s.streams);
    if id in t.Handlers() then t else Drop(t, id)
  }

  datatype Action =
    | DoRegister(id: nat, response: bool, stream: bool)
    | DoUnregister(id: nat, response: bool, stream: bool)
    | Arrive(id: nat, flags: int, data: bytes)
    | CloseFlag
    | CloseMaps

  ghost predicate Enabled(s: Rx, a: Action)
  {
    match a
    case DoRegister(id, _, _) => !s.closed && FirstFree(s.lastReqId, s.Handlers(), id)
    case CloseMaps => s.closed && !s.drained
    case _ => true
  }

  function Next(s: Rx, a: Action): (Rx, Outcome)
  {
    match a
    case DoRegister(id, response, stream) => (Register(s, id, response, stream), Buffered)
    case DoUnregister(id, response, stream) => (Unregister(s, id, response, stream), Buffered)
    case Arrive(id, flags, data) =>
      var (more, valid) := ChunkContinuation(flags);
      if valid then Reassemble(s, id, more, data) else (s, DropBadFlags)
    case CloseFlag => (s.(closed := true), Buffered)
    case CloseMaps => (s.(pending := {}, streams := {}, bufs := map[], drained := true), Buffered)
  }

  ghost predicate ValidRun(s: Rx, acts: seq<Action>)
    decreases |acts|
  {
    acts == [] || (Enabled(s, acts[0]) && ValidRun(Next(s, acts[0]).0, acts[1..]))
  }

  function After(s: Rx, acts: seq<Action>): Rx
    decreases |acts|
  {
    if acts == [] then s else After(Next(s, acts[0]).0, acts[1..])
  }

  // ----- The joint invariant -----

  predicate BufOk(b: Buf)
  {
    if b.poisoned then b == TOMBSTONE else b.total == |Concat(b.parts)| && b.total <= CAP
  }

  ghost predicate Inv(s: Rx)
  {
    && s.bufs.Keys <= s.Handlers()
    && 0 !in s.Handlers()
    && |s.Live()| <= MAX_LIVE
    && (forall id :: id in s.bufs ==> BufOk(s.bufs[id]))
    && (s.drained ==> s.closed && s.Handlers() == {} && s.bufs == map[])
  }

  lemma PutKeepsInv(s: Rx, id: nat, b: Buf)
    requires Inv(s) && id in s.Handlers() && BufOk(b)
    requires b.poisoned || id in s.Live() || |s.Live()| < MAX_LIVE
    ensures Inv(Put(s, id, b))
  {
    var t := Put(s, id, b);
    if b.poisoned || id in s.Live() {
      assert t.Live() <= s.Live();
      SubsetSize(t.Live(), s.Live());
    } else {
      assert t.Live() == s.Live() + {id};
    }
  }

  lemma DropKeepsInv(s: Rx, id: nat)
    requires Inv(s)
    ensures Inv(Drop(s, id))
  {
    SubsetSize(Drop(s, id).Live(), s.Live());
  }

  lemma ReassembleKeepsInv(s: Rx, id: nat, more: bool, data: bytes)
    requires Inv(s)
    ensures Inv(Reassemble(s, id, more, data).0)
  {
    var (t, out) := Reassemble(s, id, more, data);
    DropKeepsInv(s, id);
    if more && id in s.Handlers() {
      PutKeepsInv(s, id, TOMBSTONE);
      if out == Buffered && !(id in s.bufs && s.bufs[id].poisoned) {
        assert EMPTY_BUF.parts == [];
        var a := if id in s.bufs then s.bufs[id] else EMPTY_BUF;
        var b := Extend(a, data);
        ConcatSnoc(a.parts, data);
        assert id in s.bufs ==> id in s.Live();
        PutKeepsInv(s, id, b);
      }
    }
  }

  lemma NextKeepsInv(s: Rx, a: Action)
    requires Inv(s) && (a.DoRegister? ==> !s.closed && a.id != 0) && (a.CloseMaps? ==> s.closed)
    ensures Inv(Next(s, a).0)
  {
    var t := Next(s, a).0;
    match a
    case Arrive(id, flags, data) =>
      if ChunkContinuation(flags).1 {
        ReassembleKeepsInv(s, id, ChunkContinuation(flags).0, data);
      }
    case DoUnregister(_, _, _) =>
      assert t.Live() <= s.Live();
      SubsetSize(t.Live(), s.Live());
    case CloseMaps =>
      assert t.Live() == {};
    case _ =>
      assert t.Live() == s.Live();
  }

  /** The joint invariant holds in every state any run can reach. */
  lemma {:induction false} RunKeepsInv(s: Rx, acts: seq<Action>)
    requires Inv(s) && ValidRun(s, acts)
    ensures Inv(After(s, acts))
    decreases |acts|
  {
    if acts != [] {
      NextKeepsInv(s, acts[0]);
      RunKeepsInv(Next(s, acts[0]).0, acts[1..]);
    }
  }

  lemma FreshChannelInv()
    ensures Inv(OPENED)
  {
    assert OPENED.Live() == {};
  }

  /** On any reachable channel, an id about to be allocated has no handler and inherits no buffer. */
  lemma NewIdIsClean(acts: seq<Action>, id: nat, response: bool, stream: bool)
    requires ValidRun(OPENED, acts + [DoRegister(id, response, stream)])
    ensures id !in After(OPENED, acts).Handlers() && id !in After(OPENED, acts).bufs && id != 0
  {
    RunSplits(OPENED, acts, [DoRegister(id, response, stream)]);
    FreshChannelInv();
    RunKeepsInv(OPENED, acts);
  }

  lemma {:induction false} RunSplits(s: Rx, first: seq<Action>, second: seq<Action>)
    requires ValidRun(s, first + second)
    ensures ValidRun(s, first) && ValidRun(After(s, first), second)
    ensures After(s, first + second) == After(After(s, first), second)
    decreases |first|
  {
    if first == [] {
      assert first + second == second;
    } else {
      assert (first + second)[1..] == first[1..] + second;
      RunSplits(Next(s, first[0]).0, first[1..], second);
    }
  }

  /** Once Close has emptied the maps, no run ever puts anything back. */
  lemma {:induction false} DrainedStaysEmpty(s: Rx, acts: seq<Action>)
    requires Inv(s) && s.drained && ValidRun(s, acts)
    ensures var t := After(s, acts); t.drained && t.Handlers() == {} && t.bufs == map[]
    decreases |acts|
  {
    if acts != [] {
      NextKeepsInv(s, acts[0]);
      DrainedStaysEmpty(Next(s, acts[0]).0, acts[1..]);
    }
  }

  /** Once its handlers are gone an id has no buffer, and a chunk that still arrives for it is dropped. */
  lemma UnregisteredIsDropped(s: Rx, id: nat, data: bytes)
    requires Inv(s)
    ensures var t := Next(s, DoUnregister(id, true, true)).0;
            && id !in t.Handlers() && id !in t.bufs
            && (forall other :: other in s.Handlers() && other != id ==> other in t.Handlers())
            && Next(t, Arrive(id, FLAGS_MORE, data)) == (t, DropUnknownId)
  {
  }

  lemma {:induction false} ClosedAdmitsNothing(s: Rx, acts: seq<Action>)
    requires s.closed && ValidRun(s, acts)
    ensures After(s, acts).closed && forall i :: 0 <= i < |acts| ==> !acts[i].DoRegister?
    decreases |acts|
  {
    if acts != [] {
      ClosedAdmitsNothing(Next(s, acts[0]).0, acts[1..]);
      assert forall i :: 0 < i < |acts| ==> acts[i] == acts[1..][i - 1];
    }
  }

  /** Close, from any state: no request is registered after its flag, and after its second half no handler or buffer is left, ever. */
  lemma CloseIsFinal(s: Rx, between: seq<Action>, later: seq<Action>)
    requires Inv(s) && ValidRun(Next(s, CloseFlag).0, between)
    requires Enabled(After(Next(s, CloseFlag).0, between), CloseMaps)
    requires ValidRun(Next(After(Next(s, CloseFlag).0, between), CloseMaps).0, later)
    ensures forall i :: 0 <= i < |between| ==> !between[i].DoRegister?
    ensures var t := After(Next(After(Next(s, CloseFlag).0, between), CloseMaps).0, later); t.Handlers() == {} && t.bufs == map[]
  {
    var u := Next(s, CloseFlag).0;
    NextKeepsInv(s, CloseFlag);
    ClosedAdmitsNothing(u, between);
    RunKeepsInv(u, between);
    NextKeepsInv(After(u, between), CloseMaps);
    DrainedStaysEmpty(Next(After(u, between), CloseMaps).0, later);
  }

  // ----- Memory -----

  ghost function Pick(ids: set<nat>): (id: nat)
    requires ids != {}
    ensures id in ids
  {
    var id :| id in ids; id
  }

  /** Bytes held by the entries named in `ids`. */
  ghost function Held(bufs: map<nat, Buf>, ids: set<nat>): nat
    requires ids <= bufs.Keys
    decreases |ids|
  {
    if ids == {} then 0 else bufs[Pick(ids)].total + Held(bufs, ids - {Pick(ids)})
  }

  lemma {:induction false} HeldBound(bufs: map<nat, Buf>, ids: set<nat>)
    requires ids <= bufs.Keys
    requires forall id :: id in ids ==> BufOk(bufs[id])
    ensures Held(bufs, ids) <= |ids * LiveIds(bufs)| * CAP
    decreases |ids|
  {
    if ids != {} {
      var id := Pick(ids);
      var rest := ids - {id};
      HeldBound(bufs, rest);
      LiveCount(bufs, ids, id);
      assert BufOk(bufs[id]);
    }
  }

  lemma LiveCount(bufs: map<nat, Buf>, ids: set<nat>, id: nat)
    requires ids <= bufs.Keys && id in ids
    ensures |ids * LiveIds(bufs)| == |(ids - {id}) * LiveIds(bufs)| + (if bufs[id].poisoned then 0 else 1)
  {
    var live, rest := LiveIds(bufs), ids - {id};
    if bufs[id].poisoned {
      assert rest * live == ids * live;
    } else {
      assert rest * live + {id} == ids * live;
    }
  }

  /** A peer can never pin more than four full messages, whatever it sends and however many tombstones it leaves. */
  lemma MemoryBound(s: Rx, acts: seq<Action>)
    requires Inv(s) && ValidRun(s, acts)
    ensures var t := After(s, acts); Held(t.bufs, t.bufs.Keys) <= MAX_LIVE * CAP
  {
    RunKeepsInv(s, acts);
    InvBounds(After(s, acts));
  }

  lemma InvBounds(t: Rx)
    requires Inv(t)
    ensures Held(t.bufs, t.bufs.Keys) <= MAX_LIVE * CAP
  {
    HeldBound(t.bufs, t.bufs.Keys);
    assert t.bufs.Keys * LiveIds(t.bufs) == t.Live();
  }

  // ----- One id at a time -----

  /** What the whole machine looks like from one correlation id. */
  datatype Seat = Idle | Filling(bytes) | Dead
  {
    function Got(): bytes
    {
      match this
      case Filling(got) => got
      case _ => []
    }
  }

  function SeatOf(s: Rx, id: nat): Seat
  {
    if id !in s.bufs then Idle else if s.bufs[id].poisoned then Dead else Filling(Concat(s.bufs[id].parts))
  }

  /** The reference behaviour for one id; `admitted` says fewer than four messages are incomplete. */
  function SeatStep(seat: Seat, admitted: bool, c: Chunk): (Seat, Outcome)
  {
    var whole := seat.Got() + c.data;
    if seat.Dead? then (if c.more then Dead else Idle, Buffered)
    else if seat.Idle? && c.more && !admitted then (Dead, TooManyIncomplete)
    else if |whole| > CAP then (if c.more then Dead else Idle, Oversize)
    else if c.more then (Filling(whole), Buffered)
    else (Idle, Deliver(whole))
  }

  /** A chunk on an id without an entry. */
  lemma FirstArrival(s: Rx, id: nat, more: bool, data: bytes)
    requires id !in s.bufs && id in s.Handlers()
    ensures var (t, out) := Reassemble(s, id, more, data);
            SeatStep(Idle, |s.Live()| < MAX_LIVE, Chunk(more, data)) == (SeatOf(t, id), out)
  {
    assert Idle.Got() + data == data;
    ConcatOne(data);
    assert EMPTY_BUF.parts + [data] == [data];
  }

  /** A chunk on an id with a tombstone. */
  lemma DeadArrival(s: Rx, id: nat, more: bool, data: bytes)
    requires id in s.bufs && s.bufs[id].poisoned
    ensures var (t, out) := Reassemble(s, id, more, data);
            SeatStep(Dead, |s.Live()| < MAX_LIVE, Chunk(more, data)) == (SeatOf(t, id), out)
  {
  }

  /** A chunk on an id with a live buffer. */
  lemma LaterArrival(s: Rx, id: nat, more: bool, data: bytes)
    requires id in s.bufs && !s.bufs[id].poisoned && s.bufs[id].total == |Concat(s.bufs[id].parts)|
    ensures var (t, out) := Reassemble(s, id, more, data);
            SeatStep(Filling(Concat(s.bufs[id].parts)), |s.Live()| < MAX_LIVE, Chunk(more, data)) == (SeatOf(t, id), out)
  {
    ConcatSnoc(s.bufs[id].parts, data);
  }

  lemma ArrivalIsSeatStep(s: Rx, id: nat, more: bool, data: bytes)
    requires Inv(s) && id in s.Handlers()
    ensures var (t, out) := Reassemble(s, id, more, data);
            SeatStep(SeatOf(s, id), |s.Live()| < MAX_LIVE, Chunk(more, data)) == (SeatOf(t, id), out)
  {
    if id !in s.bufs {
      FirstArrival(s, id, more, data);
    } else if s.bufs[id].poisoned {
      DeadArrival(s, id, more, data);
    } else {
      assert BufOk(s.bufs[id]);
      LaterArrival(s, id, more, data);
    }
  }

  datatype Event = Event(admitted: bool, chunk: Chunk, outcome: Outcome)

  predicate Concerns(a: Action, id: nat)
  {
    a.Arrive? && a.id == id && ChunkContinuation(a.flags).1
  }

  /** An action that neither delivers to `id` nor takes its last handler leaves its seat alone. */
  lemma OthersKeepSeat(s: Rx, a: Action, id: nat)
    requires Inv(s) && Enabled(s, a) && !Concerns(a, id)
    requires id in s.Handlers() && id in Next(s, a).0.Handlers()
    ensures SeatOf(Next(s, a).0, id) == SeatOf(s, id)
  {
  }

  function EventOf(s: Rx, a: Action): Event
    requires a.Arrive?
  {
    Event(|s.Live()| < MAX_LIVE, Chunk(ChunkContinuation(a.flags).0, a.data), Next(s, a).1)
  }

  /** The events of one id along a run. */
  function Trace(s: Rx, acts: seq<Action>, id: nat): seq<Event>
    decreases |acts|
  {
    if acts == [] then []
    else (if Concerns(acts[0], id) then [EventOf(s, acts[0])] else []) + Trace(Next(s, acts[0]).0, acts[1..], id)
  }

  predicate HandlerStays(s: Rx, acts: seq<Action>, id: nat)
    decreases |acts|
  {
    id in s.Handlers() && (acts != [] ==> HandlerStays(Next(s, acts[0]).0, acts[1..], id))
  }

  /** `trace` is what SeatStep produces going from `from` to `to`. */
  predicate Explains(from: Seat, trace: seq<Event>, to: Seat)
    decreases |trace|
  {
    if trace == [] then from == to
    else
      var (mid, out) := SeatStep(from, trace[0].admitted, trace[0].chunk);
      out == trace[0].outcome && Explains(mid, trace[1..], to)
  }

  /** Refinement: seen from any id whose handler stays, the whole machine behaves like that id's own seat. */
  lemma {:induction false} RunRefinesSeat(s: Rx, acts: seq<Action>, id: nat)
    requires Inv(s) && ValidRun(s, acts) && HandlerStays(s, acts, id)
    ensures Explains(SeatOf(s, id), Trace(s, acts, id), SeatOf(After(s, acts), id))
    decreases |acts|
  {
    if acts != [] {
      var a := acts[0];
      var t := Next(s, a).0;
      NextKeepsInv(s, a);
      RunRefinesSeat(t, acts[1..], id);
      assert id in t.Handlers();
      if Concerns(a, id) {
        ArrivalIsSeatStep(s, id, ChunkContinuation(a.flags).0, a.data);
        assert Trace(s, acts, id)[1..] == Trace(t, acts[1..], id);
      } else {
        OthersKeepSeat(s, a, id);
        assert Trace(s, acts, id) == Trace(t, acts[1..], id);
      }
    }
  }

  // ----- One verdict per message -----

  function ChunksOf(trace: seq<Event>): (r: seq<Chunk>)
    ensures |r| == |trace| && forall i :: 0 <= i < |r| ==> r[i] == trace[i].chunk
  {
    seq(|trace|, i requires 0 <= i < |trace| => trace[i].chunk)
  }

  function Payload(trace: seq<Event>): bytes
  {
    Concat(DataOf(ChunksOf(trace)))
  }

  lemma PayloadCons(trace: seq<Event>)
    requires trace != []
    ensures Payload(trace) == trace[0].chunk.data + Payload(trace[1..])
  {
    assert DataOf(ChunksOf(trace)) == [trace[0].chunk.data] + DataOf(ChunksOf(trace[1..]));
    ConcatCons(trace[0].chunk.data, DataOf(ChunksOf(trace[1..])));
  }

  /** Exactly the k-th event carries a verdict that satisfies `TooLarge`; all others are silent. */
  predicate OnlyErrorAt(trace: seq<Event>, k: nat)
  {
    && k < |trace| && trace[k].outcome.TooLarge()
    && forall j :: 0 <= j < |trace| && j != k ==> trace[j].outcome == Buffered
  }

  predicate DeliveredAtEnd(trace: seq<Event>, whole: bytes)
  {
    && trace != [] && trace[|trace| - 1].outcome == Deliver(whole)
    && forall j :: 0 <= j < |trace| - 1 ==> trace[j].outcome == Buffered
  }

  predicate Refused(trace: seq<Event>)
  {
    trace != [] && trace[0].chunk.more && !trace[0].admitted
  }

  /** The promise for one message: one error if it is refused or too large, otherwise one delivery at its last chunk. */
  ghost predicate JudgedOnce(trace: seq<Event>)
  {
    if Refused(trace) || |Payload(trace)| > CAP then exists k :: OnlyErrorAt(trace, k)
    else DeliveredAtEnd(trace, Payload(trace))
  }

  lemma {:induction false} DeadSwallows(trace: seq<Event>, to: Seat)
    requires Explains(Dead, trace, to) && IsMessage(ChunksOf(trace))
    ensures to == Idle && forall j :: 0 <= j < |trace| ==> trace[j].outcome == Buffered
    decreases |trace|
  {
    assert ChunksOf(trace)[0] == trace[0].chunk;
    if |trace| > 1 {
      assert ChunksOf(trace[1..]) == ChunksOf(trace)[1..];
      DeadSwallows(trace[1..], to);
      forall j | 0 <= j < |trace| ensures trace[j].outcome == Buffered {
        if j > 0 { assert trace[j] == trace[1..][j - 1]; }
      }
    }
  }

  /** The verdict on the rest of a message, given what the seat already holds. */
  predicate Verdict(from: Seat, trace: seq<Event>, k: nat)
  {
    if (from.Idle? && Refused(trace)) || |from.Got() + Payload(trace)| > CAP then OnlyErrorAt(trace, k)
    else DeliveredAtEnd(trace, from.Got() + Payload(trace))
  }

  lemma LastChunkVerdict(from: Seat, trace: seq<Event>, to: Seat)
    requires !from.Dead? && Explains(from, trace, to) && |trace| == 1 && !trace[0].chunk.more
    ensures to == Idle && Verdict(from, trace, 0)
  {
    PayloadCons(trace);
    assert Payload(trace[1..]) == [] by { assert DataOf(ChunksOf(trace[1..])) == []; }
    assert from.Got() + Payload(trace) == from.Got() + trace[0].chunk.data;
    assert Explains(SeatStep(from, trace[0].admitted, trace[0].chunk).0, trace[1..], to);
  }

  /** Prefixing a silent chunk moves the verdict one place to the right. */
  lemma VerdictShifts(from: Seat, mid: Seat, trace: seq<Event>, k: nat)
    requires |trace| > 1 && trace[0].outcome == Buffered && trace[0].chunk.more
    requires SeatStep(from, trace[0].admitted, trace[0].chunk) == (mid, Buffered) && mid.Filling?
    requires Verdict(mid, trace[1..], k)
    ensures Verdict(from, trace, k + 1)
  {
    PayloadCons(trace);
    assert from.Got() + Payload(trace) == mid.Got() + Payload(trace[1..]);
    forall j | 1 <= j < |trace| ensures trace[j] == trace[1..][j - 1] {}
  }

  lemma {:induction false} SeatJudges(from: Seat, trace: seq<Event>, to: Seat) returns (k: nat)
    requires !from.Dead? && Explains(from, trace, to) && IsMessage(ChunksOf(trace))
    ensures to == Idle && Verdict(from, trace, k)
    decreases |trace|
  {
    var c := trace[0].chunk;
    assert c == ChunksOf(trace)[0];
    if |trace| == 1 {
      LastChunkVerdict(from, trace, to);
      return 0;
    }
    var mid := SeatStep(from, trace[0].admitted, c).0;
    assert ChunksOf(trace[1..]) == ChunksOf(trace)[1..];
    if mid.Dead? {
      DeadSwallows(trace[1..], to);
      PayloadCons(trace);
      assert |from.Got() + Payload(trace)| == |from.Got() + c.data| + |Payload(trace[1..])|;
      forall j | 1 <= j < |trace| ensures trace[j] == trace[1..][j - 1] {}
      return 0;
    }
    k := SeatJudges(mid, trace[1..], to);
    VerdictShifts(from, mid, trace, k);
    k := k + 1;
  }

  lemma {:induction false} ExplainsSplits(from: Seat, first: seq<Event>, second: seq<Event>, to: Seat) returns (mid: Seat)
    requires Explains(from, first + second, to)
    ensures Explains(from, first, mid) && Explains(mid, second, to)
    decreases |first|
  {
    if first == [] {
      assert first + second == second;
      mid := from;
    } else {
      assert (first + second)[1..] == first[1..] + second;
      mid := ExplainsSplits(SeatStep(from, first[0].admitted, first[0].chunk).0, first[1..], second, to);
    }
  }

  lemma {:induction false} SeatJudgesEach(messages: seq<seq<Event>>, to: Seat)
    requires Explains(Idle, Concat(messages), to)
    requires forall i :: 0 <= i < |messages| ==> IsMessage(ChunksOf(messages[i]))
    ensures to == Idle && forall i :: 0 <= i < |messages| ==> JudgedOnce(messages[i])
    decreases |messages|
  {
    if messages != [] {
      var front, last := messages[..|messages| - 1], messages[|messages| - 1];
      var mid := ExplainsSplits(Idle, Concat(front), last, to);
      SeatJudgesEach(front, mid);
      var k := SeatJudges(Idle, last, to);
      assert [] + Payload(last) == Payload(last);
      assert JudgedOnce(last);
      forall i | 0 <= i < |messages| ensures JudgedOnce(messages[i]) {
        if i < |front| { assert messages[i] == front[i]; }
      }
    }
  }

  /**
   * One error per bad message: in any run that keeps the id's handler, every message on that id
   * gets exactly one verdict, nothing of it is left behind, and the next one is judged afresh.
   */
  lemma EveryMessageJudgedOnce(s: Rx, acts: seq<Action>, id: nat, messages: seq<seq<Event>>)
    requires Inv(s) && ValidRun(s, acts) && HandlerStays(s, acts, id) && id !in s.bufs
    requires Trace(s, acts, id) == Concat(messages)
    requires forall i :: 0 <= i < |messages| ==> IsMessage(ChunksOf(messages[i]))
    ensures forall i :: 0 <= i < |messages| ==> JudgedOnce(messages[i])
    ensures id !in After(s, acts).bufs
  {
    RunRefinesSeat(s, acts, id);
    SeatJudgesEach(messages, SeatOf(After(s, acts), id));
  }
}
