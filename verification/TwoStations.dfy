/** Two supervised stations joined by a channel that carries whole frames. */
module TwoStations {
  import opened Words
  import opened Vos
  import opened BapContext
  import opened FrameFormat
  import opened Heartbeat

  datatype Station = Station(host: Host, self: Mac, peer: Mac, ls: Ls)

  type Frame = seq<u8>

  /** near sends into `out` and receives from `into`; far the other way round. */
  datatype Net = Net(near: Station, far: Station, out: seq<Frame>, into: seq<Frame>)

  /** The same system seen from the other station. */
  function Flip(n: Net): Net {
    Net(n.far, n.near, n.into, n.out)
  }

  datatype Event =
    | TimerExpires
    | Deliver(rx: PktId, stale: seq<u8>)   // the oldest frame for near arrives in packet rx
    | Local(a: Action)                     // data marked, a TL completion, a new interval,
                                           // another user of the packet pool
    | Put(frame: Frame)                    // any frame enters the channel: data, a stranger's

  predicate LocalOnly(a: Action) {
    || a.MarkData? || a.SetInterval? || a.OtherTakes? || a.OtherReturns?
    || (a.TlComplete? && a.outcome == Granted)
  }

  function Request(s: Station): Frame {
    LsFrame(s.self, s.peer, TYPE_LS_REQ)
  }

  function Reply(s: Station): Frame {
    LsFrame(s.self, s.peer, TYPE_LS_REP)
  }

  /** What the near station does with a frame, and the frame it answers with. */
  function OnFrame(s: Station, rx: PktId, frame: Frame, stale: seq<u8>): (Station, seq<Frame>) {
    if |stale| != LLC_HEADER_LEN || |frame| < HEADER_802_3_LEN then (s, [])
    else
      var kind := Classify(s.host, s.self, s.peer, frame, stale);
      (s.(ls := Step(s.ls, Arrive(rx, kind, true))),
       if kind == RxLs(TYPE_LS_REQ) && s.ls.pool.rep.Some? then [Reply(s)] else [])
  }

  /** One event at the near station; TL accepts every frame. */
  function NearStep(n: Net, e: Event): Net {
    match e
    case TimerExpires =>
      var a := Expire(true);
      n.(near := n.near.(ls := Step(n.near.ls, a)),
         out := n.out + if SendsRequest(n.near.ls, a) then [Request(n.near)] else [])
    case Deliver(rx, stale) =>
      if n.into == [] || rx !in n.near.ls.pool.live then n
      else
        var (s, answer) := OnFrame(n.near, rx, n.into[0], stale);
        n.(near := s, into := n.into[1..], out := n.out + answer)
    case Local(a) =>
      if LocalOnly(a) then n.(near := n.near.(ls := Step(n.near.ls, a))) else n
    case Put(frame) => n.(out := n.out + [frame])
  }

  datatype Side = Near | Far

  function NetStep(n: Net, side: Side, e: Event): Net {
    if side == Near then NearStep(n, e) else Flip(NearStep(Flip(n), e))
  }

  function NetRun(n: Net, run: seq<(Side, Event)>): Net {
    if run == [] then n
    else
      var last := run[|run| - 1];
      NetStep(NetRun(n, run[..|run| - 1]), last.0, last.1)
  }

  predicate Supervising(s: Station) {
    HeartbeatInv(s.ls.beat) && s.ls.pool.req.Some? && s.ls.pool.rep.Some?
  }

  /** The request of the near station, or the reply to it, is on the way. */
  predicate OnTheWay(n: Net) {
    Request(n.near) in n.out || Reply(n.far) in n.into
  }

  predicate Half(n: Net) {
    && Supervising(n.near)
    && n.far.self == n.near.peer && n.far.peer == n.near.self
    && (n.near.ls.beat.reqPending ==> OnTheWay(n))
  }

  /** An outstanding request, or the reply to it, is on the way, on both sides. */
  predicate NetInv(n: Net) {
    Half(n) && Half(Flip(n))
  }

  predicate SameAddresses(s: Station, t: Station) {
    s.host == t.host && s.self == t.self && s.peer == t.peer
  }

  /** A request or reply of the far station is recognised by the near one. */
  lemma OwnFramesRecognised(n: Net, rx: PktId, stale: seq<u8>)
    requires n.far.self == n.near.peer && n.far.peer == n.near.self
    requires |stale| == LLC_HEADER_LEN
    ensures OnFrame(n.near, rx, Request(n.far), stale) ==
            (n.near.(ls := Step(n.near.ls, Arrive(rx, RxLs(TYPE_LS_REQ), true))),
             if n.near.ls.pool.rep.Some? then [Reply(n.near)] else [])
    ensures OnFrame(n.near, rx, Reply(n.far), stale) ==
            (n.near.(ls := Step(n.near.ls, Arrive(rx, RxLs(TYPE_LS_REP), true))), [])
  {
    var s, body := n.near, seq(LS_BODY_LEN, _ => 0);
    ClassifyAirFrame(s.host, s.self, s.peer, n.far.peer, n.far.self, LLC_HEADER_LEN, TYPE_LS_REQ, body, stale);
    ClassifyAirFrame(s.host, s.self, s.peer, n.far.peer, n.far.self, LLC_HEADER_LEN, TYPE_LS_REP, body, stale);
  }

  lemma OnFrameKeeps(s: Station, rx: PktId, frame: Frame, stale: seq<u8>)
    requires Supervising(s)
    ensures var (t, _) := OnFrame(s, rx, frame, stale);
            && Supervising(t) && SameAddresses(s, t)
            && t.ls.beat.raised == s.ls.beat.raised
            && t.ls.beat.retries <= s.ls.beat.retries
            && (t.ls.beat.reqPending ==> s.ls.beat.reqPending)
  {
    if |stale| == LLC_HEADER_LEN && |frame| >= HEADER_802_3_LEN {
      StepCounts(s.ls, Arrive(rx, Classify(s.host, s.self, s.peer, frame, stale), true));
    }
  }

  /** The timer of the near station runs out. */
  predicate Expires(n: Net, e: Event) {
    e.TimerExpires? && n.near.ls.beat.timer
  }

  lemma {:induction false} NearStepKeepsInv(n: Net, e: Event)
    requires NetInv(n) && !(e.TimerExpires? && Raises(n.near.ls, Expire(true)))
    requires e.Deliver? ==> |e.stale| == LLC_HEADER_LEN
    ensures var m := NearStep(n, e);
            && NetInv(m)
            && m.near.ls.beat.raised == n.near.ls.beat.raised
            && m.near.ls.beat.retries <= n.near.ls.beat.retries + (if Expires(n, e) then 1 else 0)
            && m.far == n.far
  {
    var m := NearStep(n, e);
    match e
    case TimerExpires =>
      StepCounts(n.near.ls, Expire(true));
      if SendsRequest(n.near.ls, Expire(true)) { assert Request(n.near) in m.out; }
    case Deliver(rx, stale) =>
      if n.into != [] && rx in n.near.ls.pool.live {
        OnFrameKeeps(n.near, rx, n.into[0], stale);
        OwnFramesRecognised(n, rx, stale);
        assert n.into == [n.into[0]] + m.into;
        if n.into[0] == Request(n.far) { assert Reply(n.near) in m.out; }
      }
    case Local(a) =>
      StepCounts(n.near.ls, a);
    case Put(frame) =>
  }

  // ----- delivery, as a hypothesis on events and channel contents

  function Seen(n: Net, side: Side): Net {
    if side == Near then n else Flip(n)
  }

  /** Expiries of a station's timer since its exchange was last finished, that is, since
      neither its request nor the reply to it was on the way. */
  function Lag(n: Net, run: seq<(Side, Event)>, side: Side): nat {
    if run == [] || !OnTheWay(Seen(NetRun(n, run), side)) then 0
    else
      var before, last := run[..|run| - 1], run[|run| - 1];
      Lag(n, before, side) +
        (if last.0 == side && Expires(Seen(NetRun(n, before), side), last.1) then 1 else 0)
  }

  /** Every exchange is finished before its sender's (RETRIES + 1)-th expiry. */
  predicate WithinLag(n: Net, run: seq<(Side, Event)>) {
    run == [] ||
    (var before, last := run[..|run| - 1], run[|run| - 1];
     WithinLag(n, before) &&
     (Expires(Seen(NetRun(n, before), last.0), last.1) ==> Lag(n, before, last.0) < RETRIES))
  }

  /** Every frame is delivered and answered before its sender's next expiry: each expiry
      finds neither the station's request nor the peer's reply on the way. */
  predicate PromptRun(n: Net, run: seq<(Side, Event)>) {
    run == [] ||
    (var before, last := run[..|run| - 1], run[|run| - 1];
     var now := Seen(NetRun(n, before), last.0);
     PromptRun(n, before) && (Expires(now, last.1) ==> !OnTheWay(now)))
  }

  predicate StaleFull(run: seq<(Side, Event)>) {
    forall x <- run :: x.1.Deliver? ==> |x.1.stale| == LLC_HEADER_LEN
  }

  predicate FirstTry(n: Net) {
    n.near.ls.beat.retries == 0 && n.far.ls.beat.retries == 0
  }

  /** Bounded lag: if every exchange is finished before its sender's (RETRIES + 1)-th expiry,
      no run of the composed system makes either station raise a media disconnection, in any
      mix of data, strangers' frames, TL completions, new intervals and expiries on either
      side; a station never counts more retries than expiries of the unfinished exchange. */
  lemma {:induction false} NoFalseDisconnection(n: Net, run: seq<(Side, Event)>)
    requires NetInv(n) && FirstTry(n) && WithinLag(n, run) && StaleFull(run)
    ensures NetInv(NetRun(n, run))
    ensures NetRun(n, run).near.ls.beat.raised == n.near.ls.beat.raised
    ensures NetRun(n, run).far.ls.beat.raised == n.far.ls.beat.raised
    ensures NetRun(n, run).near.ls.beat.retries <= Lag(n, run, Near)
    ensures NetRun(n, run).far.ls.beat.retries <= Lag(n, run, Far)
  {
    if run != [] {
      var before, last := run[..|run| - 1], run[|run| - 1];
      assert forall x <- before :: x in run;
      NoFalseDisconnection(n, before);
      assert last in run;
      NearStepKeepsInv(Seen(NetRun(n, before), last.0), last.1);
    }
  }

  /** Prompt delivery is lag zero at every expiry. */
  lemma {:induction false} PromptIsWithinLag(n: Net, run: seq<(Side, Event)>)
    requires PromptRun(n, run)
    ensures WithinLag(n, run)
  {
    if run != [] {
      PromptIsWithinLag(n, run[..|run| - 1]);
    }
  }

  /** Under prompt delivery nothing is ever retried: every expiry finds no request
      outstanding and no retry counted, so no station counts more than one. */
  lemma {:induction false} PromptDelivery(n: Net, run: seq<(Side, Event)>)
    requires NetInv(n) && FirstTry(n) && PromptRun(n, run) && StaleFull(run)
    ensures var now := NetRun(n, run);
            && NetInv(now)
            && now.near.ls.beat.raised == n.near.ls.beat.raised
            && now.far.ls.beat.raised == n.far.ls.beat.raised
            && now.near.ls.beat.retries <= 1 && now.far.ls.beat.retries <= 1
            && (forall side: Side :: !OnTheWay(Seen(now, side)) ==>
                  Seen(now, side).near.ls.beat.retries == 0 && !Seen(now, side).near.ls.beat.reqPending)
  {
    PromptIsWithinLag(n, run);
    NoFalseDisconnection(n, run);
    if run != [] {
      var before, last := run[..|run| - 1], run[|run| - 1];
      assert forall x <- before :: x in run;
      PromptDelivery(n, before);
      PromptIsWithinLag(n, before);
      NoFalseDisconnection(n, before);
      assert last in run;
      NearStepKeepsInv(Seen(NetRun(n, before), last.0), last.1);
    }
  }

  /** The invariant is there to begin with: two mirrored stations just after Init. */
  lemma FreshStationsSatisfyNetInv(n: Net, ls1: Ls, ls2: Ls)
    requires n.near.ls == Init(ls1, Granted, Granted) && n.far.ls == Init(ls2, Granted, Granted)
    requires n.far.self == n.near.peer && n.far.peer == n.near.self
    ensures NetInv(n)
  {
  }

  /** The hypothesis matters: with RETRIES requests lost, the next expiry raises. */
  lemma LostRequestsRaise(s: Ls)
    requires s.beat.timer && !s.beat.dataSeen && s.beat.retries == 0 && !s.beat.reqPending
    requires s.beat.interval >= MIN_TIMER_MS && s.pool.req.Some?
    ensures Run(s, [Expire(true), Expire(true), Expire(true)]).beat.raised == s.beat.raised + 1
  {
    var run := [Expire(true), Expire(true), Expire(true)];
    DetectedAfterExactly(s, run);
    assert Expiries(s, run[..2][..1][..0]) == 0;
    DetectedAfterExactly(s, run[..2]);
    DetectedAfterExactly(s, run[..2][..1]);
    DetectedAfterExactly(s, run[..2][..1][..0]);
  }
}
