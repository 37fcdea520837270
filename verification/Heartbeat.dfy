/** Link supervision as a machine over values: one station, its timer, the two packets it
    keeps ready, and the frames TL holds. Every step is one entry point of the driver. */
module Heartbeat {
  import opened Words
  import opened Vos
  import opened FrameFormat

  /** WLANBAP_LINK_SUPERVISION_RETRIES. */
  const RETRIES: u8 := 2

  datatype Beat = Beat(
    reqPending: bool, dataSeen: bool, retries: u8, interval: u16, timer: bool, raised: nat)

  /** The packet pool and what link supervision knows of it. Others take packets from the
      pool, too: `taken` are the ids link supervision itself has ever been given. */
  datatype Pool = Pool(
    req: Option<PktId>, rep: Option<PktId>,
    live: set<PktId>, next: PktId, returned: multiset<PktId>, inTl: multiset<PktId>,
    taken: set<PktId>)

  datatype Ls = Ls(beat: Beat, pool: Pool)

  // ----- building blocks

  /** Stop, then start for one interval. */
  function Restart(b: Beat): Beat {
    b.(timer := TimerAfterStart(false, b.interval))
  }

  function RestartUnlessInfinite(b: Beat): Beat {
    if b.interval != 0 then Restart(b) else b
  }

  function Return(q: Pool, p: PktId): Pool {
    q.(live := q.live - {p}, returned := q.returned + multiset{p})
  }

  function Take(q: Pool, outcome: Allocation): (Pool, Option<PktId>) {
    match outcome
    case Granted =>
      (q.(live := q.live + {q.next}, next := q.next + 1, taken := q.taken + {q.next}), Some(q.next))
    case NoPacket => (q, None)
    case NoHeadroom =>
      (q.(live := q.live - {q.next}, next := q.next + 1, taken := q.taken + {q.next},
          returned := q.returned + multiset{q.next}), None)
  }

  /** A new packet, or none, becomes the request or the reply packet. */
  function Refill(q: Pool, isReq: bool, outcome: Allocation): Pool {
    var (q1, taken) := Take(q, outcome);
    if isReq then q1.(req := taken) else q1.(rep := taken)
  }

  /** Does TL take the frame? It is never handed a packet that is not there. */
  predicate Accepted(p: Option<PktId>, tlAccepts: bool) {
    p.Some? && tlAccepts
  }

  /** What an accepted frame does to the retry counter and the timer. */
  function AfterSubmit(b: Beat, protoType: u16): Beat {
    RestartUnlessInfinite(
      if protoType == TYPE_LS_REQ
      then b.(reqPending := true, retries := (b.retries + 1) % 256) else b)
  }

  function Transmit(s: Ls, p: Option<PktId>, protoType: u16, tlAccepts: bool): Ls {
    if !Accepted(p, tlAccepts) then s
    else Ls(AfterSubmit(s.beat, protoType), s.pool.(inTl := s.pool.inTl + multiset{p.value}))
  }

  // ----- entry points

  function Init(s: Ls, reqOutcome: Allocation, repOutcome: Allocation): Ls {
    var beat := s.beat.(reqPending := false, retries := 0);
    var pool1 := Refill(s.pool, true, reqOutcome);
    if pool1.req == None then Ls(beat, pool1)
    else
      var pool2 := Refill(pool1, false, repOutcome);
      if pool2.rep == None || beat.interval == 0 then Ls(beat, pool2)
      else Ls(beat.(timer := TimerAfterStart(beat.timer, beat.interval)), pool2)
  }

  function DeInit(s: Ls): Ls {
    var q := s.pool;
    var q1 := if q.rep.Some? then Return(q, q.rep.value).(rep := None) else q;
    var q2 := if q1.req.Some? then Return(q1, q1.req.value).(req := None) else q1;
    Ls(s.beat.(timer := false), q2)
  }

  /** The supervision timer has run out. */
  function Handler(s: Ls, tlAccepts: bool): Ls {
    var b := s.beat;
    if b.dataSeen then
      s.(beat := Restart(b.(dataSeen := false, reqPending := false, retries := 0)))
    else if b.reqPending && b.retries == RETRIES then
      s.(beat := b.(raised := b.raised + 1))
    else
      Transmit(s.(beat := b.(timer := false)), s.pool.req, TYPE_LS_REQ, tlAccepts)
  }

  /** A link-supervision frame that passed the MAC check. */
  function Receive(s: Ls, protoType: u16, tlAccepts: bool): Ls {
    if protoType == TYPE_LS_REP then
      s.(beat := RestartUnlessInfinite(s.beat.(reqPending := false, retries := 0)))
    else if protoType == TYPE_LS_REQ then
      Transmit(s.(beat := RestartUnlessInfinite(s.beat)), s.pool.rep, TYPE_LS_REP, tlAccepts)
    else s
  }

  /** A received packet goes back to the pool. */
  function Dropped(s: Ls, rx: PktId): Ls {
    s.(pool := Return(s.pool, rx))
  }

  /** TL has completed packet p: it is replaced, then returned. */
  function Complete(q: Pool, p: PktId, outcome: Allocation): Pool {
    var filled := Refill(q, q.req == Some(p), outcome);
    if outcome != Granted then filled else Return(filled, p)
  }

  // ----- runs

  datatype Action =
    | DoInit(reqOutcome: Allocation, repOutcome: Allocation)
    | DoDeInit
    | Expire(tlAccepts: bool)
    | Arrive(rx: PktId, kind: RxKind, tlAccepts: bool)   // the receive callback
    | MarkData
    | TlComplete(p: PktId, outcome: Allocation)
    | SetInterval(interval: u16)
    | OtherTakes                       // someone else takes a packet from the pool,
    | OtherReturns(p: PktId)           // or gives one back

  /** A received packet: data goes up to the host, or is dropped when supervision is off; a
      frame of the peer goes back to the pool and is processed by its type; what fails the
      MAC check is left alone. */
  function Received(s: Ls, rx: PktId, kind: RxKind, tlAccepts: bool): Ls {
    match kind
    case RxData =>
      if s.beat.interval != 0 then s.(beat := s.beat.(dataSeen := true)) else Dropped(s, rx)
    case RxLs(protoType) => Receive(Dropped(s, rx), protoType, tlAccepts)
    case RxMacMismatch => s
  }

  /** A step that cannot happen does not: only a running timer expires, only a packet in TL
      completes, only a live packet arrives or is given back. An expiring timer is a stopped
      timer. */
  function Step(s: Ls, a: Action): Ls {
    match a
    case DoInit(reqOutcome, repOutcome) => Init(s, reqOutcome, repOutcome)
    case DoDeInit => DeInit(s)
    case Expire(tlAccepts) =>
      if s.beat.timer then Handler(s.(beat := s.beat.(timer := false)), tlAccepts) else s
    case Arrive(rx, kind, tlAccepts) =>
      if rx in s.pool.live then Received(s, rx, kind, tlAccepts) else s
    case MarkData => s.(beat := s.beat.(dataSeen := true))
    case TlComplete(p, outcome) =>
      if p !in s.pool.inTl then s
      else s.(pool := Complete(s.pool.(inTl := s.pool.inTl - multiset{p}), p, outcome))
    case SetInterval(interval) => s.(beat := s.beat.(interval := interval))
    case OtherTakes =>
      s.(pool := s.pool.(live := s.pool.live + {s.pool.next}, next := s.pool.next + 1))
    case OtherReturns(p) => if p in s.pool.live then Dropped(s, p) else s
  }

  function Run(s: Ls, run: seq<Action>): Ls {
    if run == [] then s else Step(Run(s, run[..|run| - 1]), run[|run| - 1])
  }

  // ----- the retry counter

  /** The events that start counting anew: Init, a received reply, an expiry that saw data. */
  predicate Resets(s: Ls, a: Action) {
    || a.DoInit?
    || (a.Arrive? && a.rx in s.pool.live && a.kind == RxLs(TYPE_LS_REP))
    || (a.Expire? && s.beat.timer && s.beat.dataSeen)
  }

  /** An expiry that finds the data flag clear and the retries used up. */
  predicate Raises(s: Ls, a: Action) {
    a.Expire? && s.beat.timer && !s.beat.dataSeen && s.beat.reqPending &&
    s.beat.retries == RETRIES
  }

  /** An expiry that finds the data flag clear and sends a request TL accepts. */
  predicate SendsRequest(s: Ls, a: Action) {
    a.Expire? && s.beat.timer && !s.beat.dataSeen && !Raises(s, a) &&
    Accepted(s.pool.req, a.tlAccepts)
  }

  /** 0 <= retries <= RETRIES, and a request is outstanding exactly when retries > 0. */
  predicate HeartbeatInv(b: Beat) {
    b.retries <= RETRIES && (b.reqPending <==> b.retries > 0)
  }

  /** The count of requests since the last reset after one more step. */
  function NextCount(s: Ls, a: Action, count: nat): nat {
    if Resets(s, a) then 0 else if SendsRequest(s, a) then count + 1 else count
  }

  /** Everything a step does to the retry counter and to the raised disconnections. */
  lemma StepCounts(s: Ls, a: Action)
    requires HeartbeatInv(s.beat)
    ensures Step(s, a).beat.raised == s.beat.raised + (if Raises(s, a) then 1 else 0)
    ensures Step(s, a).beat.retries == NextCount(s, a, s.beat.retries)
    ensures HeartbeatInv(Step(s, a).beat)
  {
  }

  /** The heartbeat invariant holds over every run, TL rejections and failed
      allocations included, from any state that satisfies it. */
  lemma {:induction false} HeartbeatInvariant(s: Ls, run: seq<Action>)
    requires HeartbeatInv(s.beat)
    ensures HeartbeatInv(Run(s, run).beat)
  {
    if run != [] {
      HeartbeatInvariant(s, run[..|run| - 1]);
      StepCounts(Run(s, run[..|run| - 1]), run[|run| - 1]);
    }
  }

  /** Requests accepted by TL since the last reset, counted from the run's history. */
  function SentSinceReset(s: Ls, run: seq<Action>): nat {
    if run == [] then 0
    else
      var before := run[..|run| - 1];
      NextCount(Run(s, before), run[|run| - 1], SentSinceReset(s, before))
  }

  lemma {:induction false} RetriesCountRequests(s: Ls, run: seq<Action>)
    requires s.beat.retries == 0 && !s.beat.reqPending
    ensures Run(s, run).beat.retries == SentSinceReset(s, run)
    ensures HeartbeatInv(Run(s, run).beat)
  {
    if run != [] {
      var before := run[..|run| - 1];
      RetriesCountRequests(s, before);
      StepCounts(Run(s, before), run[|run| - 1]);
    }
  }

  /** Sound and complete detection. A step raises a disconnection exactly when it is an
      expiry that finds the data flag clear after RETRIES accepted requests since the last
      reset; every expiry since that reset found the flag clear, or it would be the reset. */
  lemma {:induction false} RaisesExactlyWhenUnanswered(s: Ls, run: seq<Action>, a: Action)
    requires s.beat.retries == 0 && !s.beat.reqPending
    ensures var now := Run(s, run);
            Step(now, a).beat.raised == now.beat.raised +
              if a.Expire? && now.beat.timer && !now.beat.dataSeen &&
                 SentSinceReset(s, run) == RETRIES
              then 1 else 0
  {
    RetriesCountRequests(s, run);
    StepCounts(Run(s, run), a);
  }

  // ----- bounded detection

  /** Expiries left before a silent station raises a disconnection. */
  function ExpiriesLeft(b: Beat): int {
    if b.dataSeen then RETRIES + 2 else RETRIES - b.retries + 1
  }

  /** No frame arrives, no data is marked, TL accepts and returns packets, allocations
      succeed. */
  predicate Silent(a: Action) {
    || (a.Expire? && a.tlAccepts)
    || (a.TlComplete? && a.outcome == Granted)
    || a.OtherTakes? || a.OtherReturns?
  }

  /** Expiries that actually happened. */
  function Expiries(s: Ls, run: seq<Action>): nat {
    if run == [] then 0
    else
      var before := run[..|run| - 1];
      Expiries(s, before) +
        if run[|run| - 1].Expire? && Run(s, before).beat.timer then 1 else 0
  }

  /** One silent expiry: the measure drops by one, or it was one and the link is reported. */
  lemma SilentStep(s: Ls, a: Action)
    requires HeartbeatInv(s.beat) && s.beat.interval >= MIN_TIMER_MS && s.pool.req.Some?
    requires Silent(a)
    ensures var t := Step(s, a);
            && HeartbeatInv(t.beat) && t.beat.interval == s.beat.interval && t.pool.req.Some?
            && (a.Expire? && s.beat.timer && ExpiriesLeft(s.beat) == 1 ==>
                  t.beat.raised == s.beat.raised + 1 && !t.beat.timer)
            && (a.Expire? && s.beat.timer && ExpiriesLeft(s.beat) != 1 ==>
                  t.beat.raised == s.beat.raised && t.beat.timer &&
                  ExpiriesLeft(t.beat) == ExpiriesLeft(s.beat) - 1)
            && (!(a.Expire? && s.beat.timer) ==> t.beat == s.beat)
  {
  }

  /** A silent peer is detected at exactly the ExpiriesLeft(s)-th expiry, in every
      interleaving with TL completions: the measure drops by one at each expiry before. */
  lemma {:induction false} DetectedAfterExactly(s: Ls, run: seq<Action>)
    requires HeartbeatInv(s.beat) && s.beat.timer && s.beat.interval >= MIN_TIMER_MS
    requires s.pool.req.Some? && forall a <- run :: Silent(a)
    ensures var now, n := Run(s, run), Expiries(s, run);
            && n <= ExpiriesLeft(s.beat)
            && now.beat.raised == s.beat.raised + (if n == ExpiriesLeft(s.beat) then 1 else 0)
            && (if n < ExpiriesLeft(s.beat)
                then now.beat.timer && ExpiriesLeft(now.beat) == ExpiriesLeft(s.beat) - n
                else !now.beat.timer)
    ensures HeartbeatInv(Run(s, run).beat) && Run(s, run).pool.req.Some?
    ensures Run(s, run).beat.interval == s.beat.interval
  {
    if run != [] {
      var before := run[..|run| - 1];
      assert forall a <- before :: a in run;
      DetectedAfterExactly(s, before);
      SilentStep(Run(s, before), run[|run| - 1]);
    }
  }

  // ----- the timer

  /** Actions between Init and DeInit. The host may write the interval at any time. */
  predicate Between(run: seq<Action>) {
    forall a <- run :: !a.DoInit? && !a.DoDeInit?
  }

  /** The expiry asks TL to send a request. */
  predicate AsksTl(s: Ls, a: Action) {
    a.Expire? && s.beat.timer && !s.beat.dataSeen && !Raises(s, a)
  }

  /** The step's restart of the timer takes effect, where it makes one. An expiry restarts it
      whatever the interval is, but, unless data was seen, only after TL took the request; a
      received request or reply restarts it only if the interval is not 0. */
  predicate RestartAccepted(s: Ls, a: Action) {
    if a.Expire? then
      s.beat.timer ==> s.beat.interval >= MIN_TIMER_MS &&
                       (AsksTl(s, a) ==> Accepted(s.pool.req, a.tlAccepts))
    else if a.Arrive? && a.rx in s.pool.live && a.kind in {RxLs(TYPE_LS_REQ), RxLs(TYPE_LS_REP)}
    then s.beat.interval == 0 || s.beat.interval >= MIN_TIMER_MS
    else true
  }

  lemma {:induction false} ArmedStep(s: Ls, a: Action)
    requires s.beat.timer && !a.DoInit? && !a.DoDeInit? && !Raises(s, a)
    ensures Step(s, a).beat.timer <==> RestartAccepted(s, a)
  {
  }

  /** The timer is armed at every step of the run at which no disconnection has been
      raised. */
  predicate ArmedUntilRaised(s: Ls, run: seq<Action>) {
    && (Run(s, run).beat.raised == s.beat.raised ==> Run(s, run).beat.timer)
    && (run == [] || ArmedUntilRaised(s, run[..|run| - 1]))
  }

  predicate RestartsAccepted(s: Ls, run: seq<Action>) {
    run == [] ||
    (var before, a := run[..|run| - 1], run[|run| - 1];
     RestartsAccepted(s, before) &&
     (Run(s, before).beat.raised == s.beat.raised && !Raises(Run(s, before), a) ==>
        RestartAccepted(Run(s, before), a)))
  }

  lemma {:induction false} RaisedGrows(s: Ls, run: seq<Action>)
    requires HeartbeatInv(s.beat)
    ensures Run(s, run).beat.raised >= s.beat.raised
  {
    if run != [] {
      RaisedGrows(s, run[..|run| - 1]);
      HeartbeatInvariant(s, run[..|run| - 1]);
      StepCounts(Run(s, run[..|run| - 1]), run[|run| - 1]);
    }
  }

  /** Timer invariant, over every run between Init and DeInit, TL rejections and changing
      intervals included: the timer is armed at every step until a disconnection is raised if
      and only if the timer accepts the interval at Init and every restart takes effect. */
  lemma {:induction false} ArmedExactlyWhenRestartsAccepted(s: Ls, run: seq<Action>)
    requires !s.beat.timer && Between(run)
    ensures var start := Init(s, Granted, Granted);
            ArmedUntilRaised(start, run) <==>
            s.beat.interval >= MIN_TIMER_MS && RestartsAccepted(start, run)
  {
    var start := Init(s, Granted, Granted);
    if run != [] {
      var before, a := run[..|run| - 1], run[|run| - 1];
      var now := Run(start, before);
      assert a in run && forall x <- before :: x in run;
      ArmedExactlyWhenRestartsAccepted(s, before);
      RaisedGrows(start, before);
      HeartbeatInvariant(start, before);
      StepCounts(now, a);
      if now.beat.raised == start.beat.raised && now.beat.timer && !Raises(now, a) {
        ArmedStep(now, a);
      }
    }
  }

  /** TL takes the request of every expiry that asks it. */
  predicate TlTakesRequests(s: Ls, run: seq<Action>) {
    run == [] ||
    (var before, a := run[..|run| - 1], run[|run| - 1];
     TlTakesRequests(s, before) &&
     (AsksTl(Run(s, before), a) ==> Accepted(Run(s, before).pool.req, a.tlAccepts)))
  }

  /** So the host keeps the timer armed by writing only intervals the timer accepts, as long
      as TL takes the requests. */
  lemma {:induction false} ArmedWhileIntervalsAccepted(s: Ls, run: seq<Action>)
    requires !s.beat.timer && Between(run) && TlTakesRequests(Init(s, Granted, Granted), run)
    requires s.beat.interval >= MIN_TIMER_MS
    requires forall a <- run :: a.SetInterval? ==> a.interval >= MIN_TIMER_MS
    ensures ArmedUntilRaised(Init(s, Granted, Granted), run)
    ensures Run(Init(s, Granted, Granted), run).beat.interval >= MIN_TIMER_MS
  {
    var start := Init(s, Granted, Granted);
    if run != [] {
      var before, a := run[..|run| - 1], run[|run| - 1];
      assert a in run && forall x <- before :: x in run;
      ArmedWhileIntervalsAccepted(s, before);
      RaisedGrows(start, before);
      HeartbeatInvariant(start, before);
      StepCounts(Run(start, before), a);
    }
  }

  /** And at a constant interval, with TL taking the requests, the timer is armed until a
      disconnection if and only if that interval is accepted: 1 to 9 never arm it. */
  lemma {:induction false} ArmedExactlyWhenIntervalAccepted(s: Ls, run: seq<Action>)
    requires !s.beat.timer && Between(run) && TlTakesRequests(Init(s, Granted, Granted), run)
    requires forall a <- run :: !a.SetInterval?
    ensures var now := Run(Init(s, Granted, Granted), run).beat;
            && now.interval == s.beat.interval && now.raised >= s.beat.raised
            && (now.raised == s.beat.raised ==>
                  (now.timer <==> s.beat.interval >= MIN_TIMER_MS))
  {
    if run != [] {
      assert run[|run| - 1] in run && forall a <- run[..|run| - 1] :: a in run;
      ArmedExactlyWhenIntervalAccepted(s, run[..|run| - 1]);
    }
  }

  /** Without TL accepting, the guarantee is lost: a rejected request leaves the timer
      stopped and counts no retry. */
  lemma RejectionDisarms(s: Ls)
    requires s.beat.timer && !s.beat.dataSeen && !Raises(s, Expire(false))
    ensures Step(s, Expire(false)) == s.(beat := s.beat.(timer := false))
  {
  }
}
