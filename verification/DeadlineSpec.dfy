/**
The deadline I/O scheduler, block/deadline-iosched.c, as a transition system on values.

Requests of each direction wait on a fifo ordered by deadline and on a list sorted by sector.
Dispatch runs batches along the sector order, prefers reads, and lets writes in after reads have
passed them over `writesStarved` times.
*/
module DeadlineSpec {
  import opened Common

  datatype Rq = Rq(id: nat, pos: nat, end: nat, expires: int)

  /** One direction: fifo_list, sort_list and next_rq. */
  datatype Side = Side(fifo: seq<Rq>, sort: seq<Rq>, next: Option<Rq>)

  datatype Sent = Sent(write: bool, rq: Rq)

  datatype State = State(
    reading: Side,
    writing: Side,
    batching: nat,
    starved: nat,
    lastSector: nat,
    readExpire: nat,
    writeExpire: nat,
    fifoBatch: nat,
    writesStarved: nat,
    dispatched: seq<Sent>)

  function Dir(s: State, write: bool): Side {
    if write then s.writing else s.reading
  }

  function WithDir(s: State, write: bool, d: Side): State {
    if write then s.(writing := d) else s.(reading := d)
  }

  function Init(readExpire: nat, writeExpire: nat, fifoBatch: nat, writesStarved: nat): State {
    State(Side([], [], None), Side([], [], None), 0, 0, 0, readExpire, writeExpire, fifoBatch, writesStarved, [])
  }

  /** elv_rb_add: after all requests that do not start later. */
  function Insert(sort: seq<Rq>, rq: Rq): seq<Rq> {
    if sort == [] || rq.pos < sort[0].pos then [rq] + sort else [sort[0]] + Insert(sort[1..], rq)
  }

  function Without(l: seq<Rq>, rq: Rq): seq<Rq> {
    if l == [] then [] else if l[0] == rq then l[1..] else [l[0]] + Without(l[1..], rq)
  }

  /** deadline_latter_request: the next request in sector order. */
  function Latter(sort: seq<Rq>, rq: Rq): Option<Rq> {
    if |sort| < 2 then None
    else if sort[0] == rq then Some(sort[1])
    else Latter(sort[1..], rq)
  }

  /** deadline_add_request */
  function Add(s: State, write: bool, id: nat, pos: nat, end: nat, now: nat): State {
    var rq := Rq(id, pos, end, now + if write then s.writeExpire else s.readExpire);
    var d := Dir(s, write);
    WithDir(s, write, d.(fifo := d.fifo + [rq], sort := Insert(d.sort, rq)))
  }

  /** deadline_move_request: the request leaves both lists, its successor is next in line. */
  function Move(s: State, write: bool, rq: Rq): State {
    var t := s.(reading := s.reading.(next := None), writing := s.writing.(next := None));
    var d := Dir(t, write);
    WithDir(t, write, Side(Without(d.fifo, rq), Without(d.sort, rq), Latter(d.sort, rq)))
      .(lastSector := rq.end, dispatched := s.dispatched + [Sent(write, rq)])
  }

  /** The request the running batch would go on with. */
  function InBatch(s: State): Option<Sent> {
    if s.writing.next.Some? then Some(Sent(true, s.writing.next.value))
    else if s.reading.next.Some? then Some(Sent(false, s.reading.next.value))
    else None
  }

  /** The request a new batch in this direction starts with. */
  function BatchStart(d: Side, now: nat): Rq
    requires d.fifo != []
  {
    if now > d.fifo[0].expires || d.next.None? then d.fifo[0] else d.next.value
  }

  /** Start a new batch. */
  function StartBatch(s: State, write: bool, now: nat): State
    requires Dir(s, write).fifo != []
  {
    Move(s.(batching := 1), write, BatchStart(Dir(s, write), now))
  }

  /** deadline_dispatch_requests */
  function Dispatch(s: State, now: nat): State {
    var b := InBatch(s);
    if b.Some? && s.batching < s.fifoBatch then Move(s.(batching := s.batching + 1), b.value.write, b.value.rq)
    else if s.reading.fifo != [] then
      if s.writing.fifo != [] then
        if s.starved >= s.writesStarved then StartBatch(s.(starved := 0), true, now)
        else StartBatch(s.(starved := s.starved + 1), false, now)
      else StartBatch(s, false, now)
    else if s.writing.fifo != [] then StartBatch(s.(starved := 0), true, now)
    else s
  }
}
