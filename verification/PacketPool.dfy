/** Conservation of the two link-supervision packets. */
module PacketPool {
  import opened Words
  import opened Vos
  import opened FrameFormat
  import opened Heartbeat

  /** Ids below `next` have been handed out; every id link supervision was ever given is
      either live or was returned, once. Other packets may be live, too. */
  ghost predicate Books(q: Pool) {
    && (forall p <- q.live :: p < q.next)
    && (forall p <- q.taken :: p < q.next)
    && (forall p: PktId :: p in q.taken || p >= q.next ==>
          q.returned[p] == if p < q.next && p !in q.live then 1 else 0)
  }

  /** Between Init and DeInit: exactly two distinct live packets of link supervision, each at
      most once in TL. */
  ghost predicate Up(q: Pool) {
    && q.req.Some? && q.rep.Some? && q.req.value != q.rep.value
    && q.live * q.taken == {q.req.value, q.rep.value}
    && Books(q)
    && (forall p: PktId :: q.inTl[p] <= if p in q.live * q.taken then 1 else 0)
  }

  /** Before Init and after DeInit: no live packet of link supervision, none in TL. */
  ghost predicate Down(q: Pool) {
    && q.req == None && q.rep == None && q.live * q.taken == {}
    && Books(q)
    && q.inTl == multiset{}
  }

  ghost predicate PoolInv(q: Pool) {
    Up(q) || Down(q)
  }

  /** The received packet goes back to the pool. */
  predicate DropsRx(s: Ls, a: Action) {
    a.Arrive? && a.rx in s.pool.live &&
    (a.kind.RxLs? || (a.kind.RxData? && s.beat.interval == 0))
  }

  /** A request of the peer is answered with the reply packet. */
  predicate SendsReply(s: Ls, a: Action) {
    a.Arrive? && a.rx in s.pool.live && a.kind == RxLs(TYPE_LS_REQ) &&
    Accepted(s.pool.rep, a.tlAccepts)
  }

  /** The discipline the driver relies on: allocations of a pair succeed together, TL has
      completed a frame before the same packet is submitted again, nothing is in TL at
      teardown, Init is not repeated without DeInit, and nobody hands in or gives back a
      packet that is link supervision's own. */
  ghost predicate Tame(s: Ls, a: Action) {
    match a
    case DoInit(reqOutcome, repOutcome) =>
      Down(s.pool) && (reqOutcome == Granted ==> repOutcome == Granted)
    case DoDeInit => s.pool.inTl == multiset{}
    case Expire(_) => SendsRequest(s, a) ==> s.pool.req.value !in s.pool.inTl
    case Arrive(rx, _, _) =>
      (DropsRx(s, a) ==> rx !in s.pool.taken) &&
      (SendsReply(s, a) ==> s.pool.rep.value !in s.pool.inTl)
    case TlComplete(p, outcome) => p in s.pool.inTl ==> outcome == Granted
    case OtherReturns(p) => p in s.pool.live ==> p !in s.pool.taken
    case _ => true
  }

  lemma CompletionBalances(q: Pool, t: Pool, p: PktId)
    requires Up(q) && p in q.inTl
    requires t.live == q.live + {q.next} - {p} && t.next == q.next + 1
    requires t.taken == q.taken + {q.next}
    requires t.returned == q.returned + multiset{p} && t.inTl == q.inTl - multiset{p}
    ensures Books(t)
    ensures forall x: PktId :: t.inTl[x] <= if x in t.live * t.taken then 1 else 0
  {
    assert q.inTl[p] <= if p in q.live * q.taken then 1 else 0;
    forall x: PktId
      ensures t.inTl[x] <= if x in t.live * t.taken then 1 else 0
    {
      assert q.inTl[x] <= if x in q.live * q.taken then 1 else 0;
    }
  }

  lemma GrantedKeepsPair(q: Pool, p: PktId)
    requires Up(q) && p in q.inTl
    ensures Up(Complete(q.(inTl := q.inTl - multiset{p}), p, Granted))
  {
    var t := Complete(q.(inTl := q.inTl - multiset{p}), p, Granted);
    assert q.inTl[p] <= if p in q.live * q.taken then 1 else 0;
    assert q.next !in q.live && p in q.live * q.taken;
    assert t.live * t.taken == q.live * q.taken + {q.next} - {p} == {t.req.value, t.rep.value};
    CompletionBalances(q, t, p);
  }

  lemma RefusedBreaksPair(q: Pool, p: PktId, outcome: Allocation)
    requires Up(q) && p in q.inTl && outcome != Granted
    ensures !PoolInv(Complete(q.(inTl := q.inTl - multiset{p}), p, outcome))
  {
    assert q.inTl[p] <= if p in q.live * q.taken then 1 else 0;
    hide Books;
    var t := Complete(q.(inTl := q.inTl - multiset{p}), p, outcome);
    assert p in q.live * q.taken;
    assert t.req == None || t.rep == None;
    assert t.req.Some? || t.rep.Some?;
  }

  /** What a completion does, packet by packet: a new packet stands in for the completed one,
      which is returned; without a new packet it is not returned, and nothing stands in for
      it. The other packet of the pair is left alone. */
  lemma CompletionExactly(q: Pool, p: PktId, outcome: Allocation)
    requires q.next !in q.live && p < q.next
    ensures var t := Complete(q, p, outcome);
            && (outcome == Granted ==>
                  t.live == q.live + {q.next} - {p} && t.returned == q.returned + multiset{p} &&
                  t.taken == q.taken + {q.next})
            && (outcome == NoPacket ==>
                  t.live == q.live && t.returned == q.returned && t.taken == q.taken)
            && (outcome == NoHeadroom ==>
                  t.live == q.live && t.returned == q.returned + multiset{q.next} &&
                  t.taken == q.taken + {q.next})
            && t.next == (if outcome == NoPacket then q.next else q.next + 1)
            && (if q.req == Some(p) then t.req else t.rep) == (if outcome == Granted then Some(q.next) else None)
            && (if q.req == Some(p) then t.rep == q.rep else t.req == q.req)
            && t.inTl == q.inTl
  {
  }

  /** Completion of a frame in TL replaces it by a new packet and returns it: the pair stays
      whole exactly when the new packet is granted. */
  lemma {:induction false} CompletionReplaces(q: Pool, p: PktId, outcome: Allocation)
    requires Up(q) && p in q.inTl
    ensures PoolInv(Complete(q.(inTl := q.inTl - multiset{p}), p, outcome)) <==> outcome == Granted
  {
    hide Up, Down, Complete;
    if outcome == Granted {
      GrantedKeepsPair(q, p);
    } else {
      RefusedBreaksPair(q, p, outcome);
    }
  }

  lemma DeInitReturnsBoth(q: Pool, s: Ls)
    requires s.pool == q && PoolInv(q)
    ensures PoolInv(DeInit(s).pool) <==> q.inTl == multiset{}
    ensures q.inTl == multiset{} ==> Down(DeInit(s).pool)
  {
    var t := DeInit(s).pool;
    if Up(q) {
      assert q.rep.value in q.live * q.taken && q.req.value in q.live * q.taken;
      assert t.live == q.live - {q.rep.value, q.req.value};
      assert t.returned == q.returned + multiset{q.rep.value} + multiset{q.req.value};
      assert t.live * t.taken == q.live * q.taken - {q.rep.value, q.req.value};
    }
    assert t.req == None && t.live * t.taken == {};
  }

  lemma InitTakesTwo(s: Ls, reqOutcome: Allocation, repOutcome: Allocation)
    requires PoolInv(s.pool)
    ensures PoolInv(Init(s, reqOutcome, repOutcome).pool) <==>
            Down(s.pool) && (reqOutcome == Granted ==> repOutcome == Granted)
    ensures Down(s.pool) && reqOutcome == Granted && repOutcome == Granted ==>
            Up(Init(s, reqOutcome, repOutcome).pool)
  {
    if Down(s.pool) {
      InitFromDown(s, reqOutcome, repOutcome);
    } else {
      InitAgain(s, reqOutcome, repOutcome);
    }
  }

  lemma TakeKeepsBooks(q: Pool, outcome: Allocation)
    requires Books(q)
    ensures var t := Take(q, outcome).0;
            && Books(t)
            && t.live * t.taken == q.live * q.taken + (if outcome == Granted then {q.next} else {})
            && q.next !in q.live * q.taken
  {
    assert q.next !in q.live && q.next !in q.taken;
  }

  lemma InitFromDown(s: Ls, reqOutcome: Allocation, repOutcome: Allocation)
    requires Down(s.pool)
    ensures PoolInv(Init(s, reqOutcome, repOutcome).pool) <==>
            (reqOutcome == Granted ==> repOutcome == Granted)
    ensures reqOutcome == Granted && repOutcome == Granted ==> Up(Init(s, reqOutcome, repOutcome).pool)
  {
    var q, t := s.pool, Init(s, reqOutcome, repOutcome).pool;
    TakeKeepsBooks(q, reqOutcome);
    var q1 := Refill(q, true, reqOutcome);
    assert Books(q1);
    TakeKeepsBooks(q1, repOutcome);
    if reqOutcome == Granted && repOutcome == Granted {
      assert t.live * t.taken == {q.next, q.next + 1};
    }
  }

  /** Init on a pair that is up takes two more packets, and four are live. */
  lemma InitAgain(s: Ls, reqOutcome: Allocation, repOutcome: Allocation)
    requires Up(s.pool)
    ensures !PoolInv(Init(s, reqOutcome, repOutcome).pool)
  {
    var q, t := s.pool, Init(s, reqOutcome, repOutcome).pool;
    assert q.req.value in q.live * q.taken && q.rep.value in q.live * q.taken;
    assert q.req.value in t.live * t.taken && q.rep.value in t.live * t.taken;
    assert q.req.value < q.next && t.req != q.req;
  }

  /** One step keeps the pool invariant exactly when it is tame. */
  lemma {:induction false} KeptExactlyWhenTame(s: Ls, a: Action)
    requires PoolInv(s.pool)
    ensures PoolInv(Step(s, a).pool) <==> Tame(s, a)
  {
    match a
    case DoInit(reqOutcome, repOutcome) => InitTakesTwo(s, reqOutcome, repOutcome);
    case DoDeInit => DeInitReturnsBoth(s.pool, s);
    case TlComplete(p, outcome) =>
      if p in s.pool.inTl {
        assert Up(s.pool);
        CompletionReplaces(s.pool, p, outcome);
      }
    case Expire(tlAccepts) =>
      if SendsRequest(s, a) { SubmitOnce(s.pool, s.pool.req.value); }
    case Arrive(rx, kind, tlAccepts) =>
      ArrivalKeeps(s, a);
    case MarkData =>
    case SetInterval(_) =>
    case OtherTakes => OtherTakesKeeps(s.pool);
    case OtherReturns(p) =>
      if p in s.pool.live { ForeignReturn(s.pool, p); }
  }

  lemma OtherTakesKeeps(q: Pool)
    requires PoolInv(q)
    ensures PoolInv(q.(live := q.live + {q.next}, next := q.next + 1))
  {
    var t := q.(live := q.live + {q.next}, next := q.next + 1);
    assert q.next !in q.taken;
    assert t.live * t.taken == q.live * q.taken;
  }

  /** A live packet is given back: harmless exactly when it is not link supervision's own. */
  lemma ForeignReturn(q: Pool, p: PktId)
    requires PoolInv(q) && p in q.live
    ensures PoolInv(Return(q, p)) <==> p !in q.taken
    ensures p !in q.taken ==> (Up(Return(q, p)) <==> Up(q)) && (Down(Return(q, p)) <==> Down(q))
  {
    var t := Return(q, p);
    if p !in q.taken {
      assert t.live * t.taken == q.live * q.taken;
    } else {
      assert p in q.live * q.taken && p !in t.live * t.taken;
    }
  }

  lemma ArrivalKeeps(s: Ls, a: Action)
    requires PoolInv(s.pool) && a.Arrive?
    ensures PoolInv(Step(s, a).pool) <==> Tame(s, a)
  {
    if DropsRx(s, a) {
      var dropped := Return(s.pool, a.rx);
      ForeignReturn(s.pool, a.rx);
      if SendsReply(s, a) {
        ReplyAfterDrop(s.pool, a.rx);
        assert Step(s, a).pool == dropped.(inTl := dropped.inTl + multiset{s.pool.rep.value});
      } else {
        assert Step(s, a).pool == dropped;
      }
    }
  }

  /** A received request that is answered: the packet must be foreign, and the reply packet
      at home. */
  lemma ReplyAfterDrop(q: Pool, rx: PktId)
    requires Up(q) && rx in q.live
    ensures var t := Return(q, rx);
            PoolInv(t.(inTl := t.inTl + multiset{q.rep.value})) <==>
            rx !in q.taken && q.rep.value !in q.inTl
  {
    var t := Return(q, rx);
    ForeignReturn(q, rx);
    if rx !in q.taken {
      assert q.rep.value in q.live * q.taken;
      assert q.rep.value in t.live * t.taken;
      SubmitOnce(t, q.rep.value);
    } else {
      assert rx in q.live * q.taken && rx !in t.live * t.taken;
    }
  }

  lemma SubmitOnce(q: Pool, p: PktId)
    requires Up(q) && p in q.live * q.taken
    ensures PoolInv(q.(inTl := q.inTl + multiset{p})) <==> p !in q.inTl
  {
    var t := q.(inTl := q.inTl + multiset{p});
    assert t.inTl[p] == q.inTl[p] + 1;
  }

  ghost predicate TameRun(s: Ls, run: seq<Action>) {
    run == [] ||
    (TameRun(s, run[..|run| - 1]) && Tame(Run(s, run[..|run| - 1]), run[|run| - 1]))
  }

  /** The invariant holds at every step boundary of the run. */
  ghost predicate HoldsThroughout(s: Ls, run: seq<Action>) {
    PoolInv(Run(s, run).pool) && (run == [] || HoldsThroughout(s, run[..|run| - 1]))
  }

  /** Pool conservation over runs: a run keeps the invariant at every step boundary exactly
      when every step of it is tame. So a tame run has exactly two distinct live packets of
      link supervision whenever it is up, none when it is down, and none of them is ever
      returned twice, whatever other packets come from and go to the same pool. */
  lemma {:induction false} PoolConserved(s: Ls, run: seq<Action>)
    requires PoolInv(s.pool)
    ensures TameRun(s, run) <==> HoldsThroughout(s, run)
  {
    if run != [] {
      var before := run[..|run| - 1];
      PoolConserved(s, before);
      if HoldsThroughout(s, before) {
        KeptExactlyWhenTame(Run(s, before), run[|run| - 1]);
      }
    }
  }

  lemma RunOfFour(s: Ls, a: Action, b: Action, c: Action, d: Action)
    ensures Run(s, [a, b, c, d]) == Step(Step(Step(Step(s, a), b), c), d)
  {
    var run := [a, b, c, d];
    assert run[..3] == [a, b, c] && [a, b, c][..2] == [a, b] && [a, b][..1] == [a] && [a][..0] == [];
    assert Run(s, [a]) == Step(s, a);
    assert Run(s, [a, b]) == Step(Step(s, a), b);
    assert Run(s, [a, b, c]) == Step(Step(Step(s, a), b), c);
  }

  /** Two expiries while TL holds the request submit it twice. */
  lemma TwoExpiriesSubmitTwice(s: Ls)
    requires s.pool.req.Some? && s.pool.inTl == multiset{}
    requires s.beat.timer && !s.beat.dataSeen && s.beat.retries == 0 && !s.beat.reqPending
    requires s.beat.interval >= MIN_TIMER_MS
    ensures Step(Step(s, Expire(true)), Expire(true)).pool ==
            s.pool.(inTl := multiset{s.pool.req.value, s.pool.req.value})
  {
  }

  /** Two completions of one packet return it twice, and the second replaces the reply
      packet, which stays live but is no longer reachable. */
  lemma TwoCompletionsReturnTwice(q: Pool, p: PktId)
    requires Up(q.(inTl := multiset{})) && q.req == Some(p) && q.inTl == multiset{p, p}
    ensures var once := Complete(q.(inTl := multiset{p}), p, Granted);
            var twice := Complete(once.(inTl := multiset{}), p, Granted);
            && twice.returned[p] == 2
            && q.rep.value in twice.live && twice.rep != q.rep && twice.req != q.rep
  {
    assert q.rep.value in q.live * q.taken && p in q.live * q.taken;
    assert q.returned[p] == 0;
    assert q.rep.value in q.live && q.rep.value < q.next;
  }

  /** What goes wrong otherwise: the request expires twice while TL still holds the packet,
      both completions name it, and it is given back to the pool twice. */
  lemma ResubmissionReturnsTwice(s: Ls)
    requires Up(s.pool) && s.pool.inTl == multiset{}
    requires s.beat.timer && !s.beat.dataSeen && s.beat.retries == 0 && !s.beat.reqPending
    requires s.beat.interval >= MIN_TIMER_MS
    ensures var p := s.pool.req.value;
            var t := Run(s, [Expire(true), Expire(true), TlComplete(p, Granted), TlComplete(p, Granted)]);
            && t.pool.returned[p] == 2
            && s.pool.rep.value in t.pool.live && t.pool.rep != s.pool.rep
  {
    var p := s.pool.req.value;
    RunOfFour(s, Expire(true), Expire(true), TlComplete(p, Granted), TlComplete(p, Granted));
    TwoExpiriesSubmitTwice(s);
    var s2 := Step(Step(s, Expire(true)), Expire(true));
    assert s2.pool.inTl - multiset{p} == multiset{p};
    assert s2.pool.(inTl := multiset{}) == s.pool;
    TwoCompletionsReturnTwice(s2.pool, p);
  }
}
