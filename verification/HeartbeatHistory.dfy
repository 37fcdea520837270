/** What the fields of a supervised station hold after a run, told from the run alone: the
    events that set them and the events that clear them. */
module HeartbeatHistory {
  import opened Words
  import opened Vos
  import opened FrameFormat
  import opened Heartbeat

  /** The interval the host wrote last. */
  function IntervalWritten(first: u16, run: seq<Action>): u16 {
    if run == [] then first
    else if run[|run| - 1].SetInterval? then run[|run| - 1].interval
    else IntervalWritten(first, run[..|run| - 1])
  }

  /** A packet the pool knows arrives with a frame of this kind. */
  predicate Arrives(s: Ls, a: Action, kind: RxKind) {
    a.Arrive? && a.rx in s.pool.live && a.kind == kind
  }

  /** Since the last expiry, a packet TL took was marked, or a data frame arrived in a live
      packet at a nonzero interval. */
  predicate DataMarked(s: Ls, run: seq<Action>) {
    if run == [] then s.beat.dataSeen
    else
      var before, a := run[..|run| - 1], run[|run| - 1];
      var now := Run(s, before);
      if a.MarkData? then true
      else if Arrives(now, a, RxData) && IntervalWritten(s.beat.interval, before) != 0 then true
      else if a.Expire? && now.beat.timer then false
      else DataMarked(s, before)
  }

  lemma {:induction false} FlagStep(s: Ls, a: Action)
    ensures Step(s, a).beat.interval == if a.SetInterval? then a.interval else s.beat.interval
    ensures Step(s, a).beat.dataSeen <==>
            a.MarkData? || (Arrives(s, a, RxData) && s.beat.interval != 0) ||
            (s.beat.dataSeen && !(a.Expire? && s.beat.timer))
  {
  }

  /** Over every run the interval is what the host wrote last, and the data flag is up exactly
      when data was marked since the last expiry. */
  lemma {:induction false} DataFlagIsDataMarked(s: Ls, run: seq<Action>)
    ensures Run(s, run).beat.interval == IntervalWritten(s.beat.interval, run)
    ensures Run(s, run).beat.dataSeen <==> DataMarked(s, run)
  {
    hide Step;
    if run != [] {
      DataFlagIsDataMarked(s, run[..|run| - 1]);
      FlagStep(Run(s, run[..|run| - 1]), run[|run| - 1]);
    }
  }

  /** A received data frame marks the link alive: the next expiry, whenever it comes, starts
      the count anew and sends no request, however many retries had been counted. */
  lemma {:induction false} DataKeepsLinkAlive(s: Ls, rx: PktId, tlAccepts: bool, run: seq<Action>, atExpiry: bool)
    requires rx in s.pool.live && s.beat.interval != 0
    requires forall a <- run :: !a.Expire?
    ensures var marked := Run(Step(s, Arrive(rx, RxData, tlAccepts)), run);
            var after := Step(marked, Expire(atExpiry));
            && marked.beat.dataSeen
            && (marked.beat.timer ==>
                  after.beat.retries == 0 && !after.beat.reqPending && !after.beat.dataSeen &&
                  after.beat.raised == marked.beat.raised && after.pool == marked.pool)
  {
    var start := Step(s, Arrive(rx, RxData, tlAccepts));
    hide Step;
    if run == [] {
      FlagStep(s, Arrive(rx, RxData, tlAccepts));
    } else {
      assert run[|run| - 1] in run && forall a <- run[..|run| - 1] :: a in run;
      DataKeepsLinkAlive(s, rx, tlAccepts, run[..|run| - 1], atExpiry);
      FlagStep(Run(start, run[..|run| - 1]), run[|run| - 1]);
    }
    ExpiryAfterData(Run(start, run), atExpiry);
  }

  lemma ExpiryAfterData(s: Ls, tlAccepts: bool)
    ensures var after := Step(s, Expire(tlAccepts));
            s.beat.timer && s.beat.dataSeen ==>
              after.beat.retries == 0 && !after.beat.reqPending && !after.beat.dataSeen &&
              after.beat.raised == s.beat.raised && after.pool == s.pool
  {
  }

  // ----- the timer

  /** Does the timer run? Told from what starts and stops it. */
  predicate TimerRuns(s: Ls, run: seq<Action>) {
    if run == [] then s.beat.timer
    else
      var before, a := run[..|run| - 1], run[|run| - 1];
      var now, was := Run(s, before), TimerRuns(s, before);
      var accepted := IntervalWritten(s.beat.interval, before) >= MIN_TIMER_MS;
      var infinite := IntervalWritten(s.beat.interval, before) == 0;
      match a
      case DoInit(reqOutcome, repOutcome) =>
        was || (reqOutcome == Granted && repOutcome == Granted && accepted)
      case DoDeInit => false
      case Expire(tlAccepts) =>
        was && accepted && (DataMarked(s, before) || (!Raises(now, a) && now.pool.req.Some? && tlAccepts))
      case Arrive(_, _, _) =>
        if Arrives(now, a, RxLs(TYPE_LS_REQ)) || Arrives(now, a, RxLs(TYPE_LS_REP))
        then if infinite then was else accepted
        else was
      case _ => was
  }

  lemma {:induction false} TimerStep(s: Ls, a: Action)
    ensures Step(s, a).beat.timer <==>
            match a
            case DoInit(reqOutcome, repOutcome) =>
              s.beat.timer ||
              (reqOutcome == Granted && repOutcome == Granted && s.beat.interval >= MIN_TIMER_MS)
            case DoDeInit => false
            case Expire(tlAccepts) =>
              s.beat.timer && s.beat.interval >= MIN_TIMER_MS &&
              (s.beat.dataSeen || (!Raises(s, a) && s.pool.req.Some? && tlAccepts))
            case Arrive(_, _, _) =>
              if (Arrives(s, a, RxLs(TYPE_LS_REQ)) || Arrives(s, a, RxLs(TYPE_LS_REP))) && s.beat.interval != 0
              then s.beat.interval >= MIN_TIMER_MS
              else s.beat.timer
            case _ => s.beat.timer
  {
  }

  /** Over every run, DeInit and repeated Init included, the timer runs exactly when the
      events say so. */
  lemma {:induction false} TimerIsTimerRuns(s: Ls, run: seq<Action>)
    ensures Run(s, run).beat.timer <==> TimerRuns(s, run)
  {
    hide Step, Raises, Arrives, DataMarked, IntervalWritten;
    if run != [] {
      TimerIsTimerRuns(s, run[..|run| - 1]);
      DataFlagIsDataMarked(s, run[..|run| - 1]);
      TimerStep(Run(s, run[..|run| - 1]), run[|run| - 1]);
    }
  }

  /** Where the timer begins to take the interval: 9 is refused, 10 is not. */
  lemma SmallestInterval(s: Ls)
    requires !s.beat.timer
    ensures Step(s, DoInit(Granted, Granted)).beat.timer <==> s.beat.interval >= 10
  {
  }

  /** Nothing that starts the timer: no Init, and no request or reply of the peer. */
  predicate Dormant(run: seq<Action>) {
    forall a <- run :: !a.DoInit? &&
      !(a.Arrive? && a.kind in {RxLs(TYPE_LS_REQ), RxLs(TYPE_LS_REP)})
  }

  lemma {:induction false} DormantStep(s: Ls, a: Action)
    requires !s.beat.timer && Dormant([a])
    ensures !Step(s, a).beat.timer && Step(s, a).beat.raised == s.beat.raised
    ensures a.Expire? ==> Step(s, a) == s
  {
    assert a in [a];
  }

  lemma DeInitStops(s: Ls)
    ensures !Step(s, DoDeInit).beat.timer && Step(s, DoDeInit).beat.raised == s.beat.raised
  {
  }

  /** Teardown: from a DeInit on, over every run until the next Init or received supervision
      frame, the timer is off, an expiry changes nothing, and no disconnection is raised,
      whatever retries had been used up. */
  lemma {:induction false} TornDownIsSilent(s: Ls, run: seq<Action>, tlAccepts: bool)
    requires Dormant(run)
    ensures var now := Run(Step(s, DoDeInit), run);
            && !now.beat.timer && now.beat.raised == s.beat.raised
            && Step(now, Expire(tlAccepts)) == now
  {
    hide Step;
    DeInitStops(s);
    if run != [] {
      assert run[|run| - 1] in run && forall a <- run[..|run| - 1] :: a in run;
      TornDownIsSilent(s, run[..|run| - 1], tlAccepts);
      DormantStep(Run(Step(s, DoDeInit), run[..|run| - 1]), run[|run| - 1]);
    }
    DormantStep(Run(Step(s, DoDeInit), run), Expire(tlAccepts));
  }

  /** A late frame wakes it: after teardown a reply of the peer starts the timer again. */
  lemma LateFrameRearms(s: Ls, rx: PktId, tlAccepts: bool)
    requires s.beat.interval >= MIN_TIMER_MS && rx in Step(s, DoDeInit).pool.live
    ensures Step(Step(s, DoDeInit), Arrive(rx, RxLs(TYPE_LS_REP), tlAccepts)).beat.timer
  {
  }

  // ----- packets

  /** What a step hands to TL: the request packet with a request, the reply packet with an
      answer to the peer's; a completion takes one out. Nothing else touches what TL holds. */
  lemma {:induction false} Submissions(s: Ls, a: Action)
    ensures var t := Step(s, a).pool.inTl;
            if SendsRequest(s, a) then t == s.pool.inTl + multiset{s.pool.req.value}
            else if Arrives(s, a, RxLs(TYPE_LS_REQ)) && s.pool.rep.Some? && a.tlAccepts
            then t == s.pool.inTl + multiset{s.pool.rep.value}
            else if a.TlComplete? && a.p in s.pool.inTl then t == s.pool.inTl - multiset{a.p}
            else t == s.pool.inTl
  {
  }

  /** The fate of a received packet: given back to the pool, once, when it holds a frame of
      the peer, or data while supervision is switched off; otherwise it stays live, and
      nothing else is returned. */
  lemma {:induction false} ReceivedPacketFate(s: Ls, rx: PktId, kind: RxKind, tlAccepts: bool)
    requires rx in s.pool.live
    ensures var t := Step(s, Arrive(rx, kind, tlAccepts)).pool;
            if kind.RxLs? || (kind == RxData && s.beat.interval == 0)
            then t.live == s.pool.live - {rx} && t.returned == s.pool.returned + multiset{rx}
            else t.live == s.pool.live && t.returned == s.pool.returned
  {
  }
}
