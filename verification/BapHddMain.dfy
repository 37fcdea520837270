/** bap_hdd_main.c: the host's completion callback, which runs the monitor handler itself. */
module BapHddMain {
  import opened Words
  import opened Vos
  import opened BapContext
  import opened BapApiTimer
  import opened TxMonitor
  import opened ReportPass

  /** WLANBAP_TxCompCB of the host: every fourth completion starts a monitor pass, whatever
      the monitor timer is doing. numPackets is the callback's static counter; extracted
      tells whether the packet gave up its socket buffer. */
  method TxCompCB(ctx: BapContext, plat: Platform, pkt: PktId, extracted: bool, numPackets: nat, arr: Arrivals)
    returns (status: VosStatus, count: nat)
    requires ctx.Valid() && pkt in plat.pkts
    modifies ctx.logLinks, ctx`monitorTimer, plat`pkts, plat`returned, plat`hciEvents
    ensures plat.pkts == old(plat.pkts) - {pkt} && plat.returned == old(plat.returned) + multiset{pkt}
    ensures if extracted then status == Success && count == (numPackets + 1) % 4
            else status == EFailure && count == numPackets
    ensures extracted && count == 0 ==>
            ctx.Table() == Finished(old(MonitorOf(ctx)), Callback, arr).table &&
            plat.hciEvents == old(plat.hciEvents) +
              ReportEvents(ctx.trafficMode, Lines(old(ctx.logLinks[..]), arr, MAX_LOG_LINKS))
    ensures !extracted || count != 0 ==>
            ctx.Table() == old(ctx.Table()) && plat.hciEvents == old(plat.hciEvents) &&
            ctx.monitorTimer == old(ctx.monitorTimer)
  {
    plat.ReturnPacket(pkt);
    if !extracted {
      return EFailure, numPackets;
    }
    status := Success;
    count := (numPackets + 1) % 4;
    if count == 0 {
      CallerDoesNotMatter(MonitorOf(ctx), arr);
      TxPacketMonitorHandler(ctx, plat, arr);
    }
  }

  /** A pass leaves the same table whoever runs it. */
  lemma CallerDoesNotMatter(m: Monitor, arr: Arrivals)
    requires m.Valid()
    ensures Finished(m, Timer, arr).table == Finished(m, Callback, arr).table
  {
    hide Finished, Paced;
    FinishPass(m, Timer, arr);
    FinishPass(m, Callback, arr);
    PassInProgress(m, Timer, arr, MAX_LOG_LINKS);
    PassInProgress(m, Callback, arr, MAX_LOG_LINKS);
  }
}
