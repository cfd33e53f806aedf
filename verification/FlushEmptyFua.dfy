/**
The one kind of request whose POSTFLUSH may not be a flush of its own.  A request asking for a flush
before and after with no data in between goes from PREFLUSH straight to POSTFLUSH.  If a flush is
kicked while flush_end_io is still walking, the walked list becomes the pending one, such a request
is put back on the tail of the very list being walked, and the walk reaches it a second time: its
POSTFLUSH is then declared complete although no flush was issued after it was queued.
*/
module FlushEmptyFua {
  import opened FlushSpec
  import opened FlushDevice
  import opened FlushProofs
  import opened FlushTheorems

  const DISK := Hw(true, false)
  const EMPTY_FUA := Needs(true, true, 0)

  /** A plain flush is in flight for request 0 while 1, 2 and 3 ask for an empty FUA. */
  function Waiting(): State {
    State([0], [1, 2, 3], [], 1, 0, 0,
          map[0 := Mask(false, true, true), 1 := Mask(false, true, false),
              2 := Mask(false, true, false), 3 := Mask(false, true, false)],
          {}, [FlushRq], {}, 0, false,
          [Inserted(0, DISK, Needs(true, false, 0)), Queued(0, PreFlush), Issued,
           Inserted(1, DISK, EMPTY_FUA), Queued(1, PreFlush),
           Inserted(2, DISK, EMPTY_FUA), Queued(2, PreFlush),
           Inserted(3, DISK, EMPTY_FUA), Queued(3, PreFlush)])
  }

  lemma FirstInserted()
    ensures Submit(Init(0), 0, DISK, Needs(true, false, 0), 0) ==
            State([0], [], [], 1, 0, 0, map[0 := Mask(false, true, true)], {}, [FlushRq], {}, 0, false,
                  [Inserted(0, DISK, Needs(true, false, 0)), Queued(0, PreFlush), Issued])
  {
    var t := Init(0).(done := map[0 := Mask(false, false, false)],
                      log := [Inserted(0, DISK, Needs(true, false, 0))]);
    var u := Record(t, 0, Mask(false, true, true));
    assert u.done == map[0 := Mask(false, true, true)];
    var v := QueueForFlush(u, 0, PreFlush, 0);
    assert v.queue0 == [0] && v.queue1 == [] && v.data == [];
    assert v.log == [Inserted(0, DISK, Needs(true, false, 0)), Queued(0, PreFlush)];
  }

  lemma EmptyFuaInserted(s: State, r: Rid)
    requires s.pendingIdx == 1 && s.runningIdx == 0 && s.data == [] && s.pendingSince == 0 && !s.bug
    requires r !in s.queue0 && r !in s.queue1
    ensures Submit(s, r, DISK, EMPTY_FUA, 0) ==
            s.(queue1 := s.queue1 + [r], done := s.done[r := Mask(false, true, false)],
               log := s.log + [Inserted(r, DISK, EMPTY_FUA)] + [Queued(r, PreFlush)])
  {
    WithoutFacts(s.queue0, r);
    WithoutFacts(s.queue1, r);
    var t := s.(done := s.done[r := Mask(false, false, false)], log := s.log + [Inserted(r, DISK, EMPTY_FUA)]);
    assert Record(t, r, Mask(false, true, false)).done == s.done[r := Mask(false, true, false)];
  }

  /** One turn for a request that has its first flush behind it and goes back on a queue. */
  lemma TurnToPostFlush(s: State, r: Rid)
    requires r in s.done && s.done[r] == Mask(false, true, false) && s.data == [] && !s.bug
    requires s.pendingSince == 0
    ensures var q := QueueForFlush(s.(done := s.done[r := Mask(true, true, false)]), r, PostFlush, 0);
            WalkOne(s, r, false, 0) == Kick(q, 0)
  {
    assert Record(s, r, Bit(PreFlush)) == s.(done := s.done[r := Mask(true, true, false)]);
  }

  lemma TurnToEnd(s: State, r: Rid)
    requires r in s.done && s.done[r] in {Mask(true, true, false), Mask(false, true, true)} && !s.bug
    requires DataRq(r) !in s.dispatch
    ensures WalkOne(s, r, false, 0) == Kick(Finish(s.(done := s.done[r := Mask(true, true, true)]), r, false), 0)
  {
    assert Record(s, r, Bit(CurSeq(s.done[r]))) == s.(done := s.done[r := Mask(true, true, true)]);
  }

  /** The first flush is done: request 0 ends and a flush for 1, 2 and 3 is issued. */
  function Serving(): State {
    Waiting().(queue0 := [], pendingIdx := 0, runningIdx := 1,
               done := Waiting().done[0 := Mask(true, true, true)],
               log := Waiting().log + [FlushCompleted(false)] + [Ended(0, false)] + [Issued])
  }

  lemma FirstFlushDone()
    ensures FlushDone(Fetch(Waiting(), 0), false, 0) == Serving()
  {
    FirstFlushHead();
    FirstTurn(FlushDoneHead(Fetch(Waiting(), 0), false));
    hide WalkOne, Serving, FlushDoneHead, Fetch;
  }

  lemma FirstFlushHead()
    ensures FlushDoneHead(Fetch(Waiting(), 0), false) ==
            Waiting().(runningIdx := 1, dispatch := [], log := Waiting().log + [FlushCompleted(false)])
  {
    var s := Fetch(Waiting(), 0);
    assert s.dispatch == [] && s.driver == {FlushRq};
    assert FlushDoneHead(s, false).driver == {};
  }

  lemma FirstTurn(h: State)
    requires h == Waiting().(runningIdx := 1, dispatch := [], log := Waiting().log + [FlushCompleted(false)])
    ensures WalkOne(h, 0, false, 0) == Serving()
  {
    hide WalkOne;
    TurnToEnd(h, 0);
    WithoutFacts([1, 2, 3], 0);
    var f := Finish(h.(done := h.done[0 := Mask(true, true, true)]), 0, false);
    assert f.queue0 == [] && f.queue1 == [1, 2, 3] && f.data == [];
    assert Kick(f, 0) == Serving();
  }

  /** The second flush has completed and its walk is about to begin. */
  function WalkStart(): State {
    FlushDoneHead(Fetch(Serving(), 0), false)
  }

  function Stage(q0: seq<Rid>, q1: seq<Rid>, pending: Index, m1: Mask, m2: Mask, m3: Mask, more: seq<Event>): State {
    WalkStart().(queue0 := q0, queue1 := q1, pendingIdx := pending,
                 done := WalkStart().done[1 := m1][2 := m2][3 := m3],
                 dispatch := if pending == 1 then [FlushRq] else [],
                 log := WalkStart().log + more)
  }

  /** The fields in which the stages of the walk do not differ. */
  lemma WalkStartFacts()
    ensures var w := WalkStart();
            && w.data == [] && w.runningIdx == 0 && w.pendingSince == 0 && !w.bug && w.hz == 0
            && w.driver == {} && w.direct == {}
            && 1 in w.done && 2 in w.done && 3 in w.done
  {
  }

  const PRE := Mask(false, true, false)
  const POST := Mask(true, true, false)
  const OVER := Mask(true, true, true)

  lemma Turn1Queued()
    ensures var s := Stage([], [1, 2, 3], 0, PRE, PRE, PRE, []);
            1 in s.done && QueueForFlush(s.(done := s.done[1 := POST]), 1, PostFlush, 0) ==
                           Stage([1], [2, 3], 0, POST, PRE, PRE, [Queued(1, PostFlush)])
  {
    hide WalkStart;
    WalkStartFacts();
    var s := Stage([], [1, 2, 3], 0, PRE, PRE, PRE, []);
    WithoutFacts([2, 3], 1);
    var q := QueueForFlush(s.(done := s.done[1 := POST]), 1, PostFlush, 0);
    assert q.queue0 == [1] && q.queue1 == [2, 3] && q.data == [];
    assert q.done == Stage([1], [2, 3], 0, POST, PRE, PRE, []).done;
    assert q.log == WalkStart().log + [Queued(1, PostFlush)];
  }

  lemma Turn1Kicked()
    ensures Kick(Stage([1], [2, 3], 0, POST, PRE, PRE, [Queued(1, PostFlush)]), 0) ==
            Stage([1], [2, 3], 1, POST, PRE, PRE, [Queued(1, PostFlush), Issued])
  {
    hide WalkStart;
    WalkStartFacts();
    var more := [Queued(1, PostFlush)];
    assert WalkStart().log + more + [Issued] == WalkStart().log + [Queued(1, PostFlush), Issued];
  }

  lemma Turn1()
    ensures WalkOne(Stage([], [1, 2, 3], 0, PRE, PRE, PRE, []), 1, false, 0) ==
            Stage([1], [2, 3], 1, POST, PRE, PRE, [Queued(1, PostFlush), Issued])
  {
    hide WalkStart, WalkOne, QueueForFlush, Kick;
    WalkStartFacts();
    TurnToPostFlush(Stage([], [1, 2, 3], 0, PRE, PRE, PRE, []), 1);
    Turn1Queued();
    Turn1Kicked();
  }

  lemma Turn2()
    ensures WalkOne(Stage([1], [2, 3], 1, POST, PRE, PRE, [Queued(1, PostFlush), Issued]), 2, false, 0) ==
            Stage([1], [3, 2], 1, POST, POST, PRE, [Queued(1, PostFlush), Issued, Queued(2, PostFlush)])
  {
    hide WalkStart;
    WalkStartFacts();
    var s := Stage([1], [2, 3], 1, POST, PRE, PRE, [Queued(1, PostFlush), Issued]);
    TurnToPostFlush(s, 2);
    WithoutFacts([1], 2);
    WithoutFacts([3], 2);
    var q := QueueForFlush(s.(done := s.done[2 := POST]), 2, PostFlush, 0);
    assert q.queue0 == [1] && q.queue1 == [3, 2] && q.data == [];
    assert q.done == Stage([1], [3, 2], 1, POST, POST, PRE, []).done;
  }

  lemma Turn3()
    ensures WalkOne(Stage([1], [3, 2], 1, POST, POST, PRE,
                          [Queued(1, PostFlush), Issued, Queued(2, PostFlush)]), 3, false, 0) ==
            Stage([1], [2, 3], 1, POST, POST, POST,
                  [Queued(1, PostFlush), Issued, Queued(2, PostFlush), Queued(3, PostFlush)])
  {
    hide WalkStart;
    WalkStartFacts();
    var s := Stage([1], [3, 2], 1, POST, POST, PRE, [Queued(1, PostFlush), Issued, Queued(2, PostFlush)]);
    TurnToPostFlush(s, 3);
    WithoutFacts([1], 3);
    WithoutFacts([2], 3);
    var q := QueueForFlush(s.(done := s.done[3 := POST]), 3, PostFlush, 0);
    assert q.queue0 == [1] && q.queue1 == [2, 3] && q.data == [];
    assert q.done == Stage([1], [2, 3], 1, POST, POST, POST, []).done;
  }

  lemma Turn4()
    ensures WalkOne(Stage([1], [2, 3], 1, POST, POST, POST,
                          [Queued(1, PostFlush), Issued, Queued(2, PostFlush), Queued(3, PostFlush)]), 2, false, 0) ==
            Stage([1], [3], 1, POST, OVER, POST,
                  [Queued(1, PostFlush), Issued, Queued(2, PostFlush), Queued(3, PostFlush), Ended(2, false)])
  {
    hide WalkStart;
    WalkStartFacts();
    var s := Stage([1], [2, 3], 1, POST, POST, POST,
                   [Queued(1, PostFlush), Issued, Queued(2, PostFlush), Queued(3, PostFlush)]);
    TurnToEnd(s, 2);
    WithoutFacts([1], 2);
    WithoutFacts([3], 2);
    var f := Finish(s.(done := s.done[2 := OVER]), 2, false);
    assert f.queue0 == [1] && f.queue1 == [3] && f.data == [];
    assert f.done == Stage([1], [3], 1, POST, OVER, POST, []).done;
  }

  lemma Turn5()
    ensures WalkOne(Stage([1], [3], 1, POST, OVER, POST,
                          [Queued(1, PostFlush), Issued, Queued(2, PostFlush), Queued(3, PostFlush), Ended(2, false)]),
                    3, false, 0) ==
            Stage([1], [], 1, POST, OVER, OVER,
                  [Queued(1, PostFlush), Issued, Queued(2, PostFlush), Queued(3, PostFlush),
                   Ended(2, false), Ended(3, false)])
  {
    hide WalkStart;
    WalkStartFacts();
    var s := Stage([1], [3], 1, POST, OVER, POST,
                   [Queued(1, PostFlush), Issued, Queued(2, PostFlush), Queued(3, PostFlush), Ended(2, false)]);
    TurnToEnd(s, 3);
    WithoutFacts([1], 3);
    var f := Finish(s.(done := s.done[3 := OVER]), 3, false);
    assert f.queue0 == [1] && f.queue1 == [] && f.data == [];
    assert f.done == Stage([1], [], 1, POST, OVER, OVER, []).done;
  }

  /** The walk turns five times over a list of three. */
  function AfterWalk(): State {
    Stage([1], [], 1, POST, OVER, OVER,
          [Queued(1, PostFlush), Issued, Queued(2, PostFlush), Queued(3, PostFlush), Ended(2, false), Ended(3, false)])
  }

  lemma WalkStarts()
    ensures WalkStart() == Stage([], [1, 2, 3], 0, PRE, PRE, PRE, [])
  {
    assert WalkStart().done == Stage([], [1, 2, 3], 0, PRE, PRE, PRE, []).done;
    assert Fetch(Serving(), 0).dispatch == [];
  }

  lemma SecondFlushDone()
    ensures (forall r <- WalkStart().queue1 :: r in WalkStart().done) && Walk(WalkStart(), 1, false, 0) == AfterWalk()
  {
    hide WalkOne, WalkStart;
    WalkStartFacts();
    WalkStarts();
    Turn1();
    Turn2();
    Turn3();
    Turn4();
    Turn5();
    var s1 := WalkOne(WalkStart(), 1, false, 0);
    var s2 := WalkOne(s1, 2, false, 0);
    var s3 := WalkOne(s2, 3, false, 0);
    var s4 := WalkOne(s3, 2, false, 0);
    assert Walk(s4, 1, false, 0) == AfterWalk();
    assert Walk(s3, 1, false, 0) == AfterWalk();
    assert Walk(s2, 1, false, 0) == AfterWalk();
    assert Walk(s1, 1, false, 0) == AfterWalk();
  }

  // ---------- the run ----------

  const INPUTS := [Insert(0, DISK, Needs(true, false, 0), 0), Insert(1, DISK, EMPTY_FUA, 0), Insert(2, DISK, EMPTY_FUA, 0),
                   Insert(3, DISK, EMPTY_FUA, 0), FetchItem(0), FlushIrq(false, 0), FetchItem(0), FlushIrq(false, 0)]

  function States(): seq<State> {
    var s1 := Submit(Init(0), 0, DISK, Needs(true, false, 0), 0);
    var s2 := Submit(s1, 1, DISK, EMPTY_FUA, 0);
    var s3 := Submit(s2, 2, DISK, EMPTY_FUA, 0);
    [Init(0), s1, s2, s3, Waiting(), Fetch(Waiting(), 0), Serving(), Fetch(Serving(), 0), AfterWalk()]
  }

  /** The insertions are of new requests. */
  lemma InsertsTaken()
    ensures forall i :: 0 <= i < 4 ==> Takes(States()[i], INPUTS[i], States()[i + 1])
  {
    hide Submit, Observe;
    FirstInserted();
    EmptyFuaInserted(States()[1], 1);
    EmptyFuaInserted(States()[2], 2);
    EmptyFuaInserted(States()[3], 3);
    NotInserted(States()[0].log, 0);
    NotInserted(States()[1].log, 1);
    NotInserted(States()[2].log, 2);
    NotInserted(States()[3].log, 3);
  }

  lemma FlushesTaken()
    ensures forall i :: 4 <= i < 8 ==> Takes(States()[i], INPUTS[i], States()[i + 1])
  {
    hide Submit, Walk, AfterWalk;
    FirstFlushDone();
    SecondFlushDone();
    assert FlushRq in Fetch(Waiting(), 0).driver && FlushRq in Fetch(Serving(), 0).driver;
    assert Takes(States()[4], INPUTS[4], States()[5]);
    assert Takes(States()[5], INPUTS[5], States()[6]);
    assert Takes(States()[6], INPUTS[6], States()[7]);
    assert Takes(States()[7], INPUTS[7], States()[8]);
  }

  lemma EmptyFuaRuns()
    ensures Runs(0, INPUTS, States())
  {
    hide Takes, Submit, Waiting, Serving, AfterWalk, Fetch;
    InsertsTaken();
    FlushesTaken();
  }

  /** The part of the log that is about request 2 and the flushes. */
  predicate Shows(log: seq<Event>) {
    && |log| == 19 && log[5] == Inserted(2, DISK, EMPTY_FUA) && log[7] == Inserted(3, DISK, EMPTY_FUA)
    && (forall i :: 5 < i < 19 && i != 7 ==> !log[i].Inserted?)
    && (forall i :: 0 <= i < 15 ==> log[i] != Queued(2, PostFlush))
    && (forall i :: 15 <= i < 17 ==> log[i] != Issued) && log[17] == Ended(2, false)
  }

  function BeforeWalk(): seq<Event> {
    [Inserted(0, DISK, Needs(true, false, 0)), Queued(0, PreFlush), Issued,
     Inserted(1, DISK, EMPTY_FUA), Queued(1, PreFlush), Inserted(2, DISK, EMPTY_FUA), Queued(2, PreFlush),
     Inserted(3, DISK, EMPTY_FUA), Queued(3, PreFlush), FlushCompleted(false), Ended(0, false), Issued,
     FlushCompleted(false)]
  }

  function InWalk(): seq<Event> {
    [Queued(1, PostFlush), Issued, Queued(2, PostFlush), Queued(3, PostFlush), Ended(2, false), Ended(3, false)]
  }

  lemma WalkShows(b: seq<Event>, l: seq<Event>)
    requires l == b + InWalk() && |b| == 13 && b[5] == Inserted(2, DISK, EMPTY_FUA) && b[7] == Inserted(3, DISK, EMPTY_FUA)
    requires forall i :: 5 < i < 13 && i != 7 ==> !b[i].Inserted?
    requires forall i :: 0 <= i < 13 ==> b[i] != Queued(2, PostFlush)
    ensures Shows(l)
  {
    assert forall i :: 13 <= i < 19 ==> l[i] == InWalk()[i - 13];
  }

  lemma FinalLog()
    ensures Shows(AfterWalk().log)
  {
    hide Shows;
    assert WalkStart().log == BeforeWalk();
    WalkShows(BeforeWalk(), AfterWalk().log);
  }

  /**
  Requests 2 and 3 end without error, with no flush issued between their POSTFLUSH being queued and
  their end: at the end of a run of the sequencer the POSTFLUSH of request 2 has not been served.
  */
  lemma PostFlushWithoutFlush()
    ensures Runs(0, INPUTS, States()) && AfterWalk() in States() && Policy(DISK, EMPTY_FUA).post
    ensures var log := AfterWalk().log;
            && 2 in Observe(log).hw && Observe(log).hw[2] == DISK && 2 in Observe(log).needs && Observe(log).needs[2] == EMPTY_FUA
            && |log| == 19 && log[17] == Ended(2, false) && !FlushedSince(log[..17], 2)
  {
    hide Runs, Observe, AfterWalk, FlushedSince, LatestAt, Shows;
    EmptyFuaRuns();
    assert States()[8] == AfterWalk();
    FinalLog();
    Missed(AfterWalk().log);
  }

  lemma Missed(log: seq<Event>)
    requires Shows(log)
    ensures 2 in Observe(log).hw && Observe(log).hw[2] == DISK && 2 in Observe(log).needs && Observe(log).needs[2] == EMPTY_FUA
    ensures |log| == 19 && log[17] == Ended(2, false) && !FlushedSince(log[..17], 2)
  {
    hide Observe, FlushedSince;
    assert LatestAt(log, 2, 5);
    InsertedAs(log, 2, 5);
    NotServed(log);
  }

  lemma NotServed(log: seq<Event>)
    requires Shows(log)
    ensures !FlushedSince(log[..17], 2)
  {
    forall m | 0 <= m < 17
      ensures !IssuedSince(log[..17][..m], 2)
    {
    }
  }

  /** Whatever the run: a request of this kind that ends without error has had its POSTFLUSH served. */
  ghost predicate AlwaysServed(hw: Hw, needs: Needs) {
    forall hz, inputs, states: seq<State>, s: State, k: nat ::
      Runs(hz, inputs, states) && s in states && EndsWell(s, k) ==> Served(s, hw, needs, k)
  }

  predicate EndsWell(s: State, k: nat) {
    k < |s.log| && s.log[k].Ended? && !s.log[k].error
  }

  ghost predicate Served(s: State, hw: Hw, needs: Needs, k: nat)
    requires EndsWell(s, k)
  {
    var o, r := Observe(s.log), s.log[k].r;
    r in o.hw && o.hw[r] == hw && r in o.needs && o.needs[r] == needs && Policy(hw, needs).post ==>
      FlushedSince(s.log[..k], r)
  }

  /** A flush of one's own is promised to all requests but one kind on one kind of device, and only to these. */
  lemma ServedIff(hw: Hw, needs: Needs)
    ensures AlwaysServed(hw, needs) <==> !(hw == DISK && needs == EMPTY_FUA)
  {
    hide Runs, Observe, FlushedSince, AfterWalk, States;
    if hw == DISK && needs == EMPTY_FUA {
      PostFlushWithoutFlush();
      assert !Served(AfterWalk(), hw, needs, 17);
    } else {
      assert Ordinary(Policy(hw, needs));
      forall hz, inputs, states: seq<State>, s: State, k: nat | Runs(hz, inputs, states) && s in states && EndsWell(s, k)
        ensures Served(s, hw, needs, k)
      {
        PostFlushServed(hz, inputs, states, s, k);
      }
    }
  }
}
