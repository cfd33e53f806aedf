/**
Theorems about every run of the deadline scheduler, and the scheduler as the object it is.
*/
module DeadlineTheorems {
  import opened Common
  import opened DeadlineSpec
  import opened DeadlineProofs

  datatype Event =
    | Arrive(write: bool, id: nat, pos: nat, end: nat, now: nat)
    | Serve(now: nat)

  ghost predicate Takes(s: State, e: Event, t: State) {
    match e
    case Arrive(write, id, pos, end, now) => FreshId(s, id) && t == Add(s, write, id, pos, end, now)
    case Serve(now) => t == Dispatch(s, now)
  }

  /** Any interleaving of arrivals and dispatches at non-decreasing times, with fixed settings. */
  ghost predicate Runs(events: seq<Event>, states: seq<State>) {
    && |states| == |events| + 1
    && (exists re, we, fb, ws :: states[0] == Init(re, we, fb, ws))
    && (forall i, j :: 0 <= i < j < |events| ==> events[i].now <= events[j].now)
    && (forall i :: 0 <= i < |events| ==> Takes(states[i], events[i], states[i + 1]))
  }

  ghost predicate SameSettings(s: State, t: State) {
    t.fifoBatch == s.fifoBatch && t.writesStarved == s.writesStarved
  }

  lemma StepInv(s: State, e: Event, t: State)
    requires Inv(s, e.now) && Takes(s, e, t)
    ensures Inv(t, e.now) && SameSettings(s, t)
  {
    hide Inv;
    match e
    case Arrive(write, id, pos, end, now) => AddInv(s, write, id, pos, end, now);
    case Serve(now) => DispatchInv(s, now);
  }

  /** In every state of every run: the lists agree, deadlines are in order, one batch at a time. */
  lemma {:induction false} RunInv(events: seq<Event>, states: seq<State>, k: nat)
    requires Runs(events, states) && k < |events|
    ensures Inv(states[k], events[k].now) && Inv(states[k + 1], events[k].now)
    ensures SameSettings(states[0], states[k]) && SameSettings(states[0], states[k + 1])
    ensures states[k].starved <= states[k].writesStarved
  {
    hide Inv, Takes;
    if k == 0 {
      InitInv(states[0], events[0].now);
    } else {
      RunInv(events, states, k - 1);
      Later(states[k], events[k - 1].now, events[k].now);
    }
    assert Takes(states[k], events[k], states[k + 1]);
    StepInv(states[k], events[k], states[k + 1]);
    Starvation(states[k], events[k].now);
  }

  lemma Starvation(s: State, now: nat)
    requires Inv(s, now)
    ensures s.starved <= s.writesStarved
  {
  }

  lemma InitInv(s: State, now: nat)
    requires exists re, we, fb, ws :: s == Init(re, we, fb, ws)
    ensures Inv(s, now)
  {
  }

  function Serves(events: seq<Event>): nat {
    if events == [] then 0
    else Serves(events[..|events| - 1]) + if events[|events| - 1].Serve? then 1 else 0
  }

  /** Served already, or waiting with so much less patience as dispatches went by. */
  ghost predicate Settling(s: State, write: bool, rq: Rq, budget: int) {
    || Served(s, write, rq)
    || (s.starved <= s.writesStarved && exists k: nat :: At(s, write, rq, k) && Patience(s, write, k) <= budget)
  }

  lemma SettlingStep(s: State, e: Event, t: State, write: bool, rq: Rq, budget: int)
    requires Inv(s, e.now) && Takes(s, e, t) && s.fifoBatch >= 1 && s.writesStarved >= 1
    requires e.now > rq.expires && Settling(s, write, rq, budget)
    ensures Settling(t, write, rq, if e.Serve? then budget - 1 else budget)
  {
    hide Inv;
    if Served(s, write, rq) {
      ServedStays(s, e, t, write, rq);
    } else {
      var k: nat :| At(s, write, rq, k) && Patience(s, write, k) <= budget;
      match e
      case Arrive(dir, id, pos, end, now) => AddKeeps(s, dir, id, pos, end, now, write, rq, k);
      case Serve(now) => DispatchProgress(s, now, write, rq, k);
    }
  }

  lemma ServedStays(s: State, e: Event, t: State, write: bool, rq: Rq)
    requires Takes(s, e, t) && Served(s, write, rq)
    ensures Served(t, write, rq)
  {
  }

  lemma {:induction false} RunSettles(events: seq<Event>, states: seq<State>, i: nat, j: nat, write: bool, rq: Rq, k: nat)
    requires Runs(events, states) && i < |events| && i <= j < |states|
    requires states[0].fifoBatch >= 1 && states[0].writesStarved >= 1
    requires At(states[i], write, rq, k) && events[i].now > rq.expires && states[i].starved <= states[i].writesStarved
    ensures Settling(states[j], write, rq, Patience(states[i], write, k) - Serves(events[i..j]))
    decreases j
  {
    hide Inv, Takes, Patience;
    if i < j {
      RunSettles(events, states, i, j - 1, write, rq, k);
      RunInv(events, states, j - 1);
      assert Takes(states[j - 1], events[j - 1], states[j - 1 + 1]);
      assert events[i].now <= events[j - 1].now;
      SettlingStep(states[j - 1], events[j - 1], states[j], write, rq,
                   Patience(states[i], write, k) - Serves(events[i..j - 1]));
      assert events[i..j][..j - i - 1] == events[i..j - 1];
    } else {
      assert events[i..j] == [];
    }
  }

  lemma StarvationBound(events: seq<Event>, states: seq<State>, i: nat, j: nat, write: bool, rq: Rq, k: nat)
    requires Runs(events, states) && i < |events| && i <= j < |states|
    requires states[0].fifoBatch >= 1 && states[0].writesStarved >= 1
    requires At(states[i], write, rq, k) && events[i].now > rq.expires
    requires Serves(events[i..j]) >= (k + 1) * (states[0].writesStarved + 1) * states[0].fifoBatch
    ensures Sent(write, rq) in states[j].dispatched
  {
    hide Inv, Takes, Patience, Settling, Round;
    RunInv(events, states, i);
    PatienceBound(states[i], events[i].now, write, k);
    RunSettles(events, states, i, j, write, rq, k);
    RoundOf(states[0], states[i], k);
    Settled(states[j], write, rq, Patience(states[i], write, k) - Serves(events[i..j]));
  }

  /** A batch has at least one request, whatever fifo_batch says. */
  function Batch(s: State): nat {
    if s.fifoBatch == 0 then 1 else s.fifoBatch
  }

  function Ones(states: seq<State>): seq<State> {
    seq(|states|, i requires 0 <= i < |states| => states[i].(fifoBatch := Batch(states[i])))
  }

  lemma BatchOfOne(s: State, e: Event, t: State)
    requires Inv(s, e.now) && Takes(s, e, t)
    ensures Takes(s.(fifoBatch := Batch(s)), e, t.(fifoBatch := Batch(t)))
  {
    hide SideOk;
  }

  /** A run with fifo_batch set to 0 is a run with it set to 1. */
  lemma OnesRun(events: seq<Event>, states: seq<State>)
    requires Runs(events, states)
    ensures Runs(events, Ones(states))
  {
    hide Takes, Inv;
    var re, we, fb, ws :| states[0] == Init(re, we, fb, ws);
    assert Ones(states)[0] == Init(re, we, Batch(states[0]), ws);
    forall i | 0 <= i < |events|
      ensures Takes(Ones(states)[i], events[i], Ones(states)[i + 1])
    {
      RunInv(events, states, i);
      assert Takes(states[i], events[i], states[i + 1]);
      BatchOfOne(states[i], events[i], states[i + 1]);
    }
  }

  /**
  The starvation bound.  Whatever else arrives, a request that has expired and stands at place k of
  its fifo is dispatched within (k + 1) * (writes_starved + 1) * fifo_batch dispatches.
  */
  lemma NoStarvation(events: seq<Event>, states: seq<State>, i: nat, j: nat, write: bool, rq: Rq, k: nat)
    requires Runs(events, states) && i < |events| && i <= j < |states| && states[0].writesStarved >= 1
    requires At(states[i], write, rq, k) && events[i].now > rq.expires
    requires Serves(events[i..j]) >= (k + 1) * (states[0].writesStarved + 1) * Batch(states[0])
    ensures Sent(write, rq) in states[j].dispatched
  {
    hide Runs, Inv;
    OnesRun(events, states);
    StarvationBound(events, Ones(states), i, j, write, rq, k);
  }

  lemma RoundOf(s: State, t: State, k: nat)
    requires SameSettings(s, t)
    ensures (k + 1) * (s.writesStarved + 1) * s.fifoBatch == (k + 1) * Round(t)
  {
  }

  lemma Settled(s: State, write: bool, rq: Rq, budget: int)
    requires Settling(s, write, rq, budget) && budget <= 0
    ensures Served(s, write, rq)
  {
  }

  // ---------- writes_starved set to 0 ----------

  const READ := Rq(0, 0, 0, 0)

  /** A read waits, and n writes have come and gone. */
  function Passed(fb: nat, n: nat): State
  {
    State(Side([READ], [READ], None), Side([], [], None), if n == 0 then 0 else 1, 0, 0, 0, 0, fb, 0,
          seq(n, i requires 0 <= i < n => Sent(true, Rq(i + 1, 0, 0, 1))))
  }

  function StarvingEvents(n: nat): seq<Event> {
    if n == 0 then [Arrive(false, 0, 0, 0, 0)] else StarvingEvents(n - 1) + [Arrive(true, n, 0, 0, 1), Serve(1)]
  }

  function StarvingStates(fb: nat, n: nat): seq<State> {
    if n == 0 then [Init(0, 0, fb, 0), Passed(fb, 0)]
    else StarvingStates(fb, n - 1) + [Add(Passed(fb, n - 1), true, n, 0, 0, 1), Passed(fb, n)]
  }

  /** A write comes and is served; the read, expired, stays. */
  lemma PassedBy(fb: nat, n: nat)
    ensures var s := Passed(fb, n);
            && FreshId(s, n + 1)
            && Dispatch(Add(s, true, n + 1, 0, 0, 1), 1) == Passed(fb, n + 1)
  {
    var s := Passed(fb, n);
    var w := Rq(n + 1, 0, 0, 1);
    var t := Add(s, true, n + 1, 0, 0, 1);
    assert t.writing.fifo == [w] && t.writing.sort == [w] && t.writing.next == None;
    assert Without([w], w) == [] && Latter([w], w) == None;
    assert s.dispatched + [Sent(true, w)] == Passed(fb, n + 1).dispatched;
  }

  lemma {:induction false} StarvingRuns(fb: nat, n: nat)
    ensures var events, states := StarvingEvents(n), StarvingStates(fb, n);
            && |events| == 2 * n + 1 && |states| == 2 * n + 2 && states[2 * n + 1] == Passed(fb, n)
            && events[0].now == 0 && (forall i :: 0 < i < |events| ==> events[i].now == 1)
            && states[0] == Init(0, 0, fb, 0) && states[1] == Passed(fb, 0)
            && (forall i :: 0 <= i < |events| ==> Takes(states[i], events[i], states[i + 1]))
  {
    if n == 0 {
      assert Add(Init(0, 0, fb, 0), false, 0, 0, 0, 0) == Passed(fb, 0);
    } else {
      hide Takes, Passed, Dispatch, Add;
      StarvingRuns(fb, n - 1);
      StarvingStep(fb, n);
      var events, states := StarvingEvents(n - 1), StarvingStates(fb, n - 1);
      var more, then_ := StarvingEvents(n), StarvingStates(fb, n);
      forall i | 0 <= i < |more|
        ensures Takes(then_[i], more[i], then_[i + 1])
      {
        if i < |events| {
          assert more[i] == events[i] && then_[i] == states[i] && then_[i + 1] == states[i + 1];
        }
      }
    }
  }

  lemma StarvingStep(fb: nat, n: nat)
    requires n > 0
    ensures var m := Add(Passed(fb, n - 1), true, n, 0, 0, 1);
            Takes(Passed(fb, n - 1), Arrive(true, n, 0, 0, 1), m) && Takes(m, Serve(1), Passed(fb, n))
  {
    PassedBy(fb, n - 1);
  }

  lemma {:induction false} StarvingServes(n: nat)
    ensures |StarvingEvents(n)| == 2 * n + 1 && Serves(StarvingEvents(n)[1..]) == n
  {
    if n > 0 {
      StarvingServes(n - 1);
      var l := StarvingEvents(n)[1..];
      assert l[..|l| - 1][..|l| - 2] == StarvingEvents(n - 1)[1..];
      assert Serves(l[..|l| - 1]) == n - 1;
    }
  }

  /** With writes_starved 0 a read can wait for any number of dispatches, though it is first and has expired. */
  lemma ReadsStarve(fb: nat, n: nat)
    requires n > 0
    ensures var events, states := StarvingEvents(n), StarvingStates(fb, n);
            && Runs(events, states) && |events| > 1 && states[0].writesStarved == 0 && states[0].fifoBatch == fb
            && At(states[1], false, READ, 0) && events[1].now > READ.expires
            && Serves(events[1..|states| - 1]) == n && Sent(false, READ) !in states[|states| - 1].dispatched
  {
    hide Takes;
    StarvingRuns(fb, n);
    StarvingServes(n);
    assert StarvingEvents(n)[1..|StarvingStates(fb, n)| - 1] == StarvingEvents(n)[1..];
  }

  ghost predicate Settings(states: seq<State>, fb: nat, ws: nat) {
    states != [] && states[0].fifoBatch == fb && states[0].writesStarved == ws
  }

  /** A request has waited for as many dispatches as the bound says. */
  ghost predicate Overdue(events: seq<Event>, states: seq<State>, i: nat, j: nat, write: bool, rq: Rq, k: nat) {
    && i < |events| && i <= j < |states| && |states| == |events| + 1
    && At(states[i], write, rq, k) && events[i].now > rq.expires
    && Serves(events[i..j]) >= (k + 1) * (states[0].writesStarved + 1) * Batch(states[0])
  }

  /** In every run with these settings an expired request is served within the bound. */
  ghost predicate Bounded(fb: nat, ws: nat) {
    forall events: seq<Event>, states: seq<State>, i: nat, j: nat, write: bool, rq: Rq, k: nat ::
      Runs(events, states) && Settings(states, fb, ws) && Overdue(events, states, i, j, write, rq, k) ==>
        Sent(write, rq) in states[j].dispatched
  }

  /** The bound holds for exactly the settings with writes_starved of at least 1. */
  lemma BoundedIff(fb: nat, ws: nat)
    ensures Bounded(fb, ws) <==> ws >= 1
  {
    hide Bounded;
    if ws == 0 {
      Unbounded(fb);
    } else {
      AllServed(fb, ws);
    }
  }

  lemma AllServed(fb: nat, ws: nat)
    requires ws >= 1
    ensures Bounded(fb, ws)
  {
    hide Runs, At, Serves;
    forall events: seq<Event>, states: seq<State>, i: nat, j: nat, write: bool, rq: Rq, k: nat |
      Runs(events, states) && Settings(states, fb, ws) && Overdue(events, states, i, j, write, rq, k)
      ensures Sent(write, rq) in states[j].dispatched
    {
      NoStarvation(events, states, i, j, write, rq, k);
    }
  }

  lemma Unbounded(fb: nat)
    ensures !Bounded(fb, 0)
  {
    hide Runs, At, Serves, StarvingEvents, StarvingStates;
    var n := if fb == 0 then 1 else fb;
    ReadsStarve(fb, n);
    var events, states := StarvingEvents(n), StarvingStates(fb, n);
    StarvingRuns(fb, n);
    assert Settings(states, fb, 0);
    assert Overdue(events, states, 1, |states| - 1, false, READ, 0);
  }

  // ---------- the scheduler ----------

  class Scheduler {
    var reading: Side
    var writing: Side
    var batching: nat
    var starved: nat
    var lastSector: nat
    const readExpire: nat
    const writeExpire: nat
    const fifoBatch: nat
    const writesStarved: nat
    var dispatched: seq<Sent>

    ghost function View(): State
      reads this
    {
      State(reading, writing, batching, starved, lastSector, readExpire, writeExpire, fifoBatch, writesStarved, dispatched)
    }

    /** deadline_init_queue */
    constructor (readExpire: nat, writeExpire: nat, fifoBatch: nat, writesStarved: nat)
      ensures View() == Init(readExpire, writeExpire, fifoBatch, writesStarved)
      ensures forall now: nat :: Inv(View(), now)
    {
      this.readExpire, this.writeExpire := readExpire, writeExpire;
      this.fifoBatch, this.writesStarved := fifoBatch, writesStarved;
      reading, writing := Side([], [], None), Side([], [], None);
      batching, starved, lastSector, dispatched := 0, 0, 0, [];
    }

    method AddRequest(write: bool, id: nat, pos: nat, end: nat, now: nat)
      requires Inv(View(), now) && FreshId(View(), id)
      modifies this`reading, this`writing
      ensures View() == Add(old(View()), write, id, pos, end, now)
      ensures Inv(View(), now)
    {
      hide Inv;
      AddInv(View(), write, id, pos, end, now);
      if write {
        var rq := Rq(id, pos, end, now + writeExpire);
        writing := writing.(fifo := writing.fifo + [rq], sort := Insert(writing.sort, rq));
      } else {
        var rq := Rq(id, pos, end, now + readExpire);
        reading := reading.(fifo := reading.fifo + [rq], sort := Insert(reading.sort, rq));
      }
    }

    method MoveRequest(write: bool, rq: Rq)
      modifies this`reading, this`writing, this`lastSector, this`dispatched
      ensures View() == Move(old(View()), write, rq)
    {
      reading := reading.(next := None);
      writing := writing.(next := None);
      lastSector := rq.end;
      if write {
        writing := Side(Without(writing.fifo, rq), Without(writing.sort, rq), Latter(writing.sort, rq));
      } else {
        reading := Side(Without(reading.fifo, rq), Without(reading.sort, rq), Latter(reading.sort, rq));
      }
      dispatched := dispatched + [Sent(write, rq)];
    }

    /** deadline_dispatch_requests: one request goes out unless there is none. */
    method DispatchRequests(now: nat) returns (any: bool)
      requires Inv(View(), now)
      modifies this
      ensures View() == Dispatch(old(View()), now)
      ensures Inv(View(), now)
      ensures any <==> old(reading.fifo != [] || writing.fifo != [])
      ensures any ==> |dispatched| == |old(dispatched)| + 1
    {
      hide Inv, Move;
      DispatchInv(View(), now);
      NextIsQueued(View(), now);
      var write: bool, rq: Rq;
      var next := if writing.next.Some? then writing.next else reading.next;
      if next.Some? && batching < fifoBatch {
        write, rq := writing.next.Some?, next.value;
      } else {
        if reading.fifo != [] {
          write := false;
          if writing.fifo != [] {
            if starved >= writesStarved {
              write := true;
            } else {
              starved := starved + 1;
            }
          }
        } else if writing.fifo != [] {
          write := true;
        } else {
          return false;
        }
        if write {
          starved := 0;
        }
        var d := if write then writing else reading;
        if now > d.fifo[0].expires || d.next.None? {
          rq := d.fifo[0];
        } else {
          rq := d.next.value;
        }
        batching := 0;
      }
      batching := batching + 1;
      MoveRequest(write, rq);
      MovedOne(old(View()), now);
      return true;
    }
  }

  lemma NextIsQueued(s: State, now: nat)
    requires Inv(s, now)
    ensures s.reading.next.Some? ==> s.reading.fifo != []
    ensures s.writing.next.Some? ==> s.writing.fifo != []
  {
  }

  lemma MovedOne(s: State, now: nat)
    requires Inv(s, now)
    ensures s.reading.fifo != [] || s.writing.fifo != [] ==> |Dispatch(s, now).dispatched| == |s.dispatched| + 1
  {
  }
}
