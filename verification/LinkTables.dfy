/** The table of 16 logical-link slots: allocation in serial order, release by handle, and
    release of all slots when the physical link goes down. */
module LinkTables {
  import opened Words
  import opened BapContext

  /** btampUnpackTlvFlow_Spec: the flow spec id, or a rejection. */
  type FlowSpecParser = seq<u8> -> Option<u8>

  /** bapAllocNextLogLinkIndex. */
  function NextIndex(t: LinkTable): (i: u8)
    requires t.Valid()
    ensures i < MAX_LOG_LINKS
  {
    (t.current + 1) % 16
  }

  /** The index lies above the physical handle. */
  function HandleOf(i: u8, phy: u8): u16 {
    var above: int := i;
    above * 256 + phy
  }

  /** WLANBAP_CreateNewLogLinkCtx: the table, and the handle, which is set on failure, too.
      The counters move before the flow spec is parsed, and nobody looks whether the slot is
      free. */
  function Allocate(t: LinkTable, phy: u8, flowSpec: seq<u8>, parse: FlowSpecParser): (r: LinkTable)
    requires t.Valid()
    ensures r.Valid()
  {
    var i := NextIndex(t);
    var moved := t.(current := i, total := (t.total + 1) % 256);
    match parse(flowSpec)
    case None => moved
    case Some(id) =>
      moved.(links := t.links[i := LogLink(true, HandleOf(i, phy), id, 1, 0, 0, 0)])
  }

  /** The check WLAN_BAPLogicalLinkDisconnect makes before it touches a slot. */
  predicate Releasable(t: LinkTable, handle: u16)
    requires t.Valid()
  {
    var i := handle / 256;
    i < MAX_LOG_LINKS && t.links[i].present && t.links[i].handle == handle
  }

  function Release(t: LinkTable, handle: u16): (r: LinkTable)
    requires t.Valid()
    ensures r.Valid()
  {
    if !Releasable(t, handle) then t
    else
      var i := handle / 256;
      t.(links := t.links[i := t.links[i].(present := false, txCompleted := 0, handle := 0)],
         total := (t.total - 1) % 256)
  }

  /** signalHCIPhysLinkDiscEvent: slots are freed, their counters stay. */
  function ReleaseAll(t: LinkTable): (r: LinkTable)
    requires t.Valid()
    ensures r.Valid()
  {
    LinkTable(seq(MAX_LOG_LINKS, i requires 0 <= i < MAX_LOG_LINKS => t.links[i].(present := false)), 0, 0)
  }

  /** WLANBAP_CreateNewPhyLinkCtx: the counters start again, and the slots stay as they are. */
  function ResetCounters(t: LinkTable): (r: LinkTable)
    requires t.Valid()
    ensures r.Valid()
  {
    t.(current := 0, total := 0)
  }

  // ----- what each operation does to each slot

  lemma HandleParts(i: u8, phy: u8)
    ensures HandleOf(i, phy) / 256 == i && HandleOf(i, phy) % 256 == phy
  {
  }

  /** An accepted flow spec opens the slot behind the serial index, with the handle made of
      its number and the physical handle, the parser's flow spec id, best-effort category and
      a counter of zero; a rejected one opens none. No other slot changes. */
  lemma AllocatedSlot(t: LinkTable, phy: u8, flowSpec: seq<u8>, parse: FlowSpecParser)
    requires t.Valid()
    ensures var r, i := Allocate(t, phy, flowSpec, parse), (t.current + 1) % 16;
            && r.current == i
            && (parse(flowSpec).Some? ==>
                  && r.links[i].present
                  && r.links[i].handle / 256 == i && r.links[i].handle % 256 == phy
                  && Some(r.links[i].flowSpecId) == parse(flowSpec)
                  && r.links[i].ac == 1 && r.links[i].tid == 0 && r.links[i].up == 0
                  && r.links[i].txCompleted == 0)
            && (forall k :: 0 <= k < MAX_LOG_LINKS && (k != i || parse(flowSpec) == None) ==>
                  r.links[k] == t.links[k])
  {
  }

  /** A released slot is free, without handle and without count; what the link was given at
      its opening stays. The serial index stays, too. */
  lemma ReleasedSlot(t: LinkTable, handle: u16)
    requires t.Valid() && Releasable(t, handle)
    ensures var r, i := Release(t, handle), handle / 256;
            && !r.links[i].present && r.links[i].handle == 0 && r.links[i].txCompleted == 0
            && r.links[i].flowSpecId == t.links[i].flowSpecId
            && r.links[i].ac == t.links[i].ac && r.links[i].tid == t.links[i].tid
            && r.links[i].up == t.links[i].up
            && r.current == t.current
  {
  }

  /** Losing the physical link frees every slot and changes nothing else in it. */
  lemma ReleasedAll(t: LinkTable)
    requires t.Valid()
    ensures var r := ReleaseAll(t);
            && r.current == 0 && r.total == 0
            && forall k :: 0 <= k < MAX_LOG_LINKS ==>
                 !r.links[k].present && r.links[k].(present := t.links[k].present) == t.links[k]
  {
  }

  // ----- the slot-table invariant

  /** Every occupied slot carries a handle that leads back to it. */
  predicate HandlesLeadBack(t: LinkTable) {
    forall i :: 0 <= i < |t.links| && t.links[i].present ==> t.links[i].handle / 256 == i
  }

  lemma HandlesDistinct(t: LinkTable, i: nat, j: nat)
    requires HandlesLeadBack(t) && i < |t.links| && j < |t.links| && i != j
    requires t.links[i].present && t.links[j].present
    ensures t.links[i].handle != t.links[j].handle
  {
  }

  function Occupied(links: seq<LogLink>): nat {
    if links == [] then 0
    else (if links[0].present then 1 else 0) + Occupied(links[1..])
  }

  lemma {:induction false} OccupiedUpdate(links: seq<LogLink>, i: nat, l: LogLink)
    requires i < |links|
    ensures Occupied(links[i := l]) ==
            Occupied(links) - (if links[i].present then 1 else 0) + (if l.present then 1 else 0)
  {
    if i > 0 {
      assert links[i := l][1..] == links[1..][i - 1 := l];
      OccupiedUpdate(links[1..], i - 1, l);
    } else {
      assert links[i := l][1..] == links[1..];
    }
  }

  lemma {:induction false} OccupiedAppend(links: seq<LogLink>, l: LogLink)
    ensures Occupied(links + [l]) == Occupied(links) + (if l.present then 1 else 0)
  {
    if links == [] {
    } else {
      assert (links + [l])[1..] == links[1..] + [l];
      OccupiedAppend(links[1..], l);
    }
  }

  lemma {:induction false} OccupiedBounds(links: seq<LogLink>)
    ensures Occupied(links) <= |links|
    ensures (forall l <- links :: !l.present) ==> Occupied(links) == 0
  {
    if links != [] {
      OccupiedBounds(links[1..]);
      assert forall l <- links[1..] :: l in links;
      assert links[0] in links;
    }
  }

  /** An allocation that counts without occupying a slot: the flow spec was rejected, or the
      slot was occupied already. */
  predicate Drifts(t: LinkTable, flowSpec: seq<u8>, parse: FlowSpecParser)
    requires t.Valid()
  {
    parse(flowSpec) == None || t.links[NextIndex(t)].present
  }

  /** The books of one allocation. */
  lemma AllocationCounts(t: LinkTable, phy: u8, flowSpec: seq<u8>, parse: FlowSpecParser)
    requires t.Valid()
    ensures var r := Allocate(t, phy, flowSpec, parse);
            && r.total == (t.total + 1) % 256
            && Occupied(r.links) == Occupied(t.links) + (if Drifts(t, flowSpec, parse) then 0 else 1)
            && (HandlesLeadBack(t) ==> HandlesLeadBack(r))
  {
    var i := NextIndex(t);
    match parse(flowSpec)
    case None =>
    case Some(id) =>
      OccupiedUpdate(t.links, i, LogLink(true, HandleOf(i, phy), id, 1, 0, 0, 0));
  }

  /** Disconnect removes exactly the named slot. */
  lemma ReleaseCounts(t: LinkTable, handle: u16)
    requires t.Valid()
    ensures var r := Release(t, handle);
            && (Releasable(t, handle) ==>
                  Occupied(r.links) == Occupied(t.links) - 1 && r.total == (t.total - 1) % 256 &&
                  !r.links[handle / 256].present)
            && (!Releasable(t, handle) ==> r == t)
            && (forall i :: 0 <= i < MAX_LOG_LINKS && !(Releasable(t, handle) && i == handle / 256)
                  ==> r.links[i] == t.links[i])
            && (HandlesLeadBack(t) ==> HandlesLeadBack(r))
  {
    if Releasable(t, handle) {
      var i := handle / 256;
      OccupiedUpdate(t.links, i, t.links[i].(present := false, txCompleted := 0, handle := 0));
    }
  }

  /** The slot-table invariant with its error term: handles lead back to their slots, and the
      total is the number of occupied slots plus the drift, modulo 256. */
  predicate Balanced(t: LinkTable, drift: int) {
    && t.Valid() && HandlesLeadBack(t)
    && t.total == (Occupied(t.links) + drift) % 256
  }

  lemma BalancedByCount(t: LinkTable, drift: int)
    requires Balanced(t, drift)
    ensures t.total == Occupied(t.links) <==> drift % 256 == 0
  {
    OccupiedBounds(t.links);
  }

  lemma CountIsBalanced(t: LinkTable)
    requires t.Valid() && HandlesLeadBack(t) && t.total == Occupied(t.links)
    ensures Balanced(t, 0)
  {
    OccupiedBounds(t.links);
  }

  lemma {:induction false} AllocateBalanced(t: LinkTable, phy: u8, flowSpec: seq<u8>, parse: FlowSpecParser,
                                            drift: int)
    requires Balanced(t, drift)
    ensures Balanced(Allocate(t, phy, flowSpec, parse),
                     if Drifts(t, flowSpec, parse) then drift + 1 else drift)
  {
    hide Allocate, Occupied, Drifts, HandlesLeadBack;
    AllocationCounts(t, phy, flowSpec, parse);
    ByteStep(Occupied(t.links) + drift, 1);
  }

  lemma ByteStep(x: int, d: int)
    requires d == 1 || d == -1
    ensures (x % 256 + d) % 256 == (x + d) % 256
  {
  }

  lemma {:induction false} ReleaseBalanced(t: LinkTable, handle: u16, drift: int)
    requires Balanced(t, drift)
    ensures Balanced(Release(t, handle), drift)
    ensures Balanced(ReleaseAll(t), 0)
  {
    hide Release, ReleaseAll, Occupied, HandlesLeadBack;
    ReleaseCounts(t, handle);
    ReleaseAllCounts(t);
    ByteStep(Occupied(t.links) + drift, -1);
  }

  /** A new physical link leaves the total short by every slot still occupied. */
  lemma ResetBalanced(t: LinkTable, drift: int)
    requires Balanced(t, drift)
    ensures Balanced(ResetCounters(t), 0 - Occupied(t.links))
  {
  }

  lemma ReleaseAllCounts(t: LinkTable)
    requires t.Valid()
    ensures Occupied(ReleaseAll(t).links) == 0 && ReleaseAll(t).total == 0
    ensures HandlesLeadBack(ReleaseAll(t))
  {
    OccupiedBounds(ReleaseAll(t).links);
  }

  /** Create then disconnect: the handle that create returned releases the slot again; the
      total is what it was, and the occupied slots are what they were exactly when the slot
      had been free. Only the serial index has moved on. */
  lemma CreateThenDisconnect(t: LinkTable, phy: u8, flowSpec: seq<u8>, parse: FlowSpecParser)
    requires t.Valid() && parse(flowSpec).Some?
    ensures var i, made := NextIndex(t), Allocate(t, phy, flowSpec, parse);
            var back := Release(made, made.links[i].handle);
            && Releasable(made, made.links[i].handle)
            && back.total == t.total && back.current == i
            && (forall k :: 0 <= k < MAX_LOG_LINKS && k != i ==> back.links[k] == t.links[k])
            && ((forall k :: 0 <= k < MAX_LOG_LINKS ==> back.links[k].present == t.links[k].present)
                  <==> !t.links[i].present)
  {
    var i, made := NextIndex(t), Allocate(t, phy, flowSpec, parse);
    assert made.links[i].handle == HandleOf(i, phy) && HandleOf(i, phy) / 256 == i;
  }

  function AllocateMany(t: LinkTable, n: nat, phy: u8, flowSpec: seq<u8>, parse: FlowSpecParser): (r: LinkTable)
    requires t.Valid()
    ensures r.Valid()
  {
    if n == 0 then t else Allocate(AllocateMany(t, n - 1, phy, flowSpec, parse), phy, flowSpec, parse)
  }

  /** Sixteen creations come round to the same slot, whatever was there before. */
  lemma {:induction false} AllocationsComeRound(t: LinkTable, n: nat, phy: u8, flowSpec: seq<u8>, parse: FlowSpecParser)
    requires t.Valid() && parse(flowSpec).Some?
    ensures var r := AllocateMany(t, n, phy, flowSpec, parse);
            && r.current == (t.current + n) % 16 && r.total == (t.total + n) % 256
            && (n >= 1 ==> r.links[NextIndex(t)].present)
  {
    if n > 0 {
      AllocationsComeRound(t, n - 1, phy, flowSpec, parse);
      CountersStep(t.current + n - 1, t.total + n - 1);
      if n == 1 {
        assert AllocateMany(t, 0, phy, flowSpec, parse) == t;
      }
    }
  }

  lemma CountersStep(current: int, total: int)
    ensures (current % 16 + 1) % 16 == (current + 1) % 16
    ensures (total % 256 + 1) % 256 == (total + 1) % 256
  {
  }

  lemma TotalOutgrowsLinks(t: LinkTable, phy: u8, flowSpec: seq<u8>, parse: FlowSpecParser)
    requires t.Valid() && t.total == MAX_LOG_LINKS
    ensures Allocate(t, phy, flowSpec, parse).total == 17 > Occupied(Allocate(t, phy, flowSpec, parse).links)
  {
    OccupiedBounds(Allocate(t, phy, flowSpec, parse).links);
  }

  /** So the total is not the number of links: after seventeen creations on an empty table
      it is 17, with at most 16 links to count. */
  lemma SeventeenCreations(t: LinkTable, phy: u8, flowSpec: seq<u8>, parse: FlowSpecParser)
    requires t.Valid() && t.total == 0 && parse(flowSpec).Some?
    ensures var r := AllocateMany(t, 16, phy, flowSpec, parse);
            && Drifts(r, flowSpec, parse)
            && Allocate(r, phy, flowSpec, parse).total == 17 > Occupied(Allocate(r, phy, flowSpec, parse).links)
  {
    hide AllocateMany;
    AllocationsComeRound(t, 16, phy, flowSpec, parse);
    TotalOutgrowsLinks(AllocateMany(t, 16, phy, flowSpec, parse), phy, flowSpec, parse);
  }
}
