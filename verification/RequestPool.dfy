/**
The request allocator of block/blk-core.c as a state machine.  A queue has a pool of requests for
synchronous and one for asynchronous I/O; tasks that find theirs exhausted sleep on it, and freeing a
request wakes one of them.  Every stretch of code under the queue lock is one step.
*/
module RequestPool {
  type Task = nat

  datatype Side = Sync | Async

  function Other(s: Side): Side {
    if s == Sync then Async else Sync
  }

  /** What the I/O scheduler says about one more request. */
  datatype Verdict = MayQueue | MustQueue | NoQueue

  const BATCH_REQ: nat := 32

  /** The io_context of a task, if it has one. */
  datatype Ioc = NoIoc | Ioc(batch: nat, lastWaited: int)

  /** An allocation that counts against a side, with or without scheduler data. */
  datatype Grant = Grant(side: Side, priv: bool)

  /** One side of the pool; `wait` holds its sleepers in order, `woken` those that have yet to retry. */
  datatype Lane = Lane(count: int, starved: bool, full: bool, congested: bool, wait: seq<Task>, woken: multiset<Task>)

  /** `pending` are allocations whose memory is being obtained with the lock dropped. */
  datatype Pool = Pool(nr: nat, sync: Lane, async: Lane, elvpriv: int, pending: multiset<Grant>, held: multiset<Grant>)

  function At(p: Pool, s: Side): Lane {
    if s == Sync then p.sync else p.async
  }

  function With(p: Pool, s: Side, l: Lane): Pool {
    if s == Sync then p.(sync := l) else p.(async := l)
  }

  function OnThreshold(nr: nat): int {
    var n := nr - nr / 8 + 1;
    if n > nr then nr else n
  }

  function OffThreshold(nr: nat): int {
    var n := nr - nr / 8 - nr / 16 - 1;
    if n < 1 then 1 else n
  }

  // ---------- batching ----------

  predicate Batching(ioc: Ioc, now: int, batchTime: nat) {
    ioc.Ioc? && (ioc.batch == BATCH_REQ || (ioc.batch > 0 && now < ioc.lastWaited + batchTime))
  }

  function SetBatching(ioc: Ioc, now: int, batchTime: nat): Ioc {
    if ioc.NoIoc? || Batching(ioc, now, batchTime) then ioc else Ioc(BATCH_REQ, now)
  }

  // ---------- freeing ----------

  /** wake_up on an exclusive wait queue: the first sleeper leaves it. */
  function Wake(l: Lane): Lane {
    if l.wait == [] then l else l.(wait := l.wait[1..], woken := l.woken + multiset{l.wait[0]})
  }

  /** __freed_request */
  function FreedLane(nr: nat, l: Lane): Lane {
    var c := if l.count < OffThreshold(nr) then l.(congested := false) else l;
    if c.count + 1 <= nr then Wake(c).(full := false) else c
  }

  /** freed_request */
  function Freed(p: Pool, g: Grant): Pool {
    var l := At(p, g.side);
    var p1 := With(p, g.side, FreedLane(p.nr, l.(count := l.count - 1)));
    var p2 := if g.priv then p1.(elvpriv := p1.elvpriv - 1) else p1;
    var o := Other(g.side);
    if At(p2, o).starved then With(p2, o, FreedLane(p.nr, At(p2, o))) else p2
  }

  /** A driver is done with a request. */
  function Free(p: Pool, g: Grant): Pool {
    Freed(p, g).(held := p.held - multiset{g})
  }

  // ---------- allocating ----------

  /** Marks a side that could not get a request while none of its own will be freed. */
  function MarkStarved(l: Lane): Lane {
    if l.count == 0 then l.(starved := true) else l
  }

  /** The task goes to sleep at the tail. */
  function Sleep(l: Lane, t: Task): Lane {
    l.(wait := l.wait + [t])
  }

  datatype Gate = Gate(lane: Lane, ioc: Ioc, pass: bool)

  /** The part of get_request that decides, for a side and the task's io_context. */
  function Admit(nr: nat, l: Lane, v: Verdict, ioc: Ioc, now: int, batchTime: nat): Gate {
    if v == NoQueue then Gate(MarkStarved(l), ioc, false)
    else if l.count + 1 >= OnThreshold(nr) then
      if l.count + 1 >= nr then
        if !l.full then
          Limit(nr, l.(full := true, congested := true), SetBatching(ioc, now, batchTime))
        else if v != MustQueue && !Batching(ioc, now, batchTime) then Gate(l, ioc, false)
        else Limit(nr, l.(congested := true), ioc)
      else Limit(nr, l.(congested := true), ioc)
    else Limit(nr, l, ioc)
  }

  /** The hard limit of one and a half times the nominal one. */
  function Limit(nr: nat, l: Lane, ioc: Ioc): Gate {
    if l.count >= 3 * nr / 2 then Gate(l, ioc, false)
    else Gate(l.(count := l.count + 1, starved := false), ioc, true)
  }

  /** get_request up to where it drops the lock. */
  function Get(p: Pool, g: Grant, v: Verdict, ioc: Ioc, now: int, batchTime: nat): Pool {
    var gate := Admit(p.nr, At(p, g.side), v, ioc, now, batchTime);
    var p1 := With(p, g.side, gate.lane);
    if !gate.pass then p1
    else p1.(pending := p.pending + multiset{g}, elvpriv := p.elvpriv + if g.priv then 1 else 0)
  }

  predicate Passes(p: Pool, g: Grant, v: Verdict, ioc: Ioc, now: int, batchTime: nat) {
    Admit(p.nr, At(p, g.side), v, ioc, now, batchTime).pass
  }

  /** The memory was there. */
  function Allocated(p: Pool, g: Grant): Pool {
    p.(pending := p.pending - multiset{g}, held := p.held + multiset{g})
  }

  /** The memory was not there: what was counted is undone. */
  function AllocFailed(p: Pool, g: Grant): Pool {
    var p1 := Freed(p, g).(pending := p.pending - multiset{g});
    With(p1, g.side, MarkStarved(At(p1, g.side)))
  }

  /** The task sleeps after a failed attempt, as get_request_wait does. */
  function Slept(p: Pool, s: Side, t: Task): Pool {
    With(p, s, Sleep(At(p, s), t))
  }

  /** A woken task has the lock again and is about to retry. */
  function Resumed(p: Pool, s: Side, t: Task): Pool {
    var l := At(p, s);
    With(p, s, l.(woken := l.woken - multiset{t}))
  }
}
