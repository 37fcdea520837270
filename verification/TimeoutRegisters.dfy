/** The three time-out registers of the host: what a read returns, over whole histories of
    commands. */
module TimeoutRegisters {
  import opened Words
  import opened Vos
  import opened BapContext

  const ACCEPT_TIMEOUT_MIN: u16 := 0x01
  const ACCEPT_TIMEOUT_MAX: u16 := 0xB540

  datatype Register = ConnectionAccept | LinkSupervision | LogicalLinkAccept

  /** The registers, and the physical handle that guards one of them. */
  datatype Registers = Registers(
    connectionAccept: u16, linkSupervision: u16, logicalLinkAccept: u16, phy: u8)

  function Default(reg: Register): u16 {
    match reg
    case ConnectionAccept => CONNECTION_ACCEPT_TIMEOUT
    case LinkSupervision => LINK_SUPERVISION_TIMEOUT
    case LogicalLinkAccept => LOGICAL_LINK_ACCEPT_TIMEOUT
  }

  /** Commands of the host; the handle counts only where the register belongs to a link. */
  datatype Command =
    | Reset(halPresent: bool)
    | Read(reg: Register, handle: u16)
    | Write(reg: Register, handle: u16, timeout: u16)
    | LinkMoves(newPhy: u8)               // the physical link gets a handle, or loses it

  /** The command complete event: its status, and the time-out it carries. */
  datatype Reply = Reply(status: u8, timeout: Option<u16>)

  predicate InAcceptRange(timeout: u16) {
    ACCEPT_TIMEOUT_MIN <= timeout <= ACCEPT_TIMEOUT_MAX
  }

  /** The low byte of a logical-link handle is the physical handle. */
  predicate NamesLink(r: Registers, handle: u16) {
    handle % 256 == r.phy
  }

  /** A context as it is made, or reset. */
  function Defaults(phy: u8): Registers {
    Registers(Default(ConnectionAccept), Default(LinkSupervision), Default(LogicalLinkAccept), phy)
  }

  function Execute(r: Registers, c: Command): (Registers, Option<Reply>) {
    match c
    case Reset(halPresent) =>
      if !halPresent then (r, None)
      else (Defaults(r.phy), Some(Reply(STATUS_SUCCESS, None)))
    case LinkMoves(newPhy) => (r.(phy := newPhy), None)
    case Read(ConnectionAccept, _) => (r, Some(Reply(STATUS_SUCCESS, Some(r.connectionAccept))))
    case Read(LogicalLinkAccept, _) => (r, Some(Reply(STATUS_SUCCESS, Some(r.logicalLinkAccept))))
    case Read(LinkSupervision, handle) =>
      if !NamesLink(r, handle) then (r, Some(Reply(ERROR_INVALID_HCI_CMND_PARAM, Some(0))))
      else (r, Some(Reply(STATUS_SUCCESS, Some(r.linkSupervision))))
    case Write(ConnectionAccept, _, timeout) =>
      if !InAcceptRange(timeout) then (r, Some(Reply(ERROR_INVALID_HCI_CMND_PARAM, None)))
      else (r.(connectionAccept := timeout), Some(Reply(STATUS_SUCCESS, None)))
    case Write(LogicalLinkAccept, _, timeout) =>
      if !InAcceptRange(timeout) then (r, Some(Reply(ERROR_INVALID_HCI_CMND_PARAM, None)))
      else (r.(logicalLinkAccept := timeout), Some(Reply(STATUS_SUCCESS, None)))
    case Write(LinkSupervision, handle, timeout) =>
      if !NamesLink(r, handle) then (r, Some(Reply(ERROR_INVALID_HCI_CMND_PARAM, None)))
      else (r.(linkSupervision := timeout), Some(Reply(STATUS_SUCCESS, None)))
  }

  function History(r: Registers, run: seq<Command>): Registers {
    if run == [] then r else Execute(History(r, run[..|run| - 1]), run[|run| - 1]).0
  }

  // ----- the reference: the host's own record of its commands

  /** The physical handle, from the link's movements alone. */
  function HandleNow(phy: u8, run: seq<Command>): u8 {
    if run == [] then phy
    else if run[|run| - 1].LinkMoves? then run[|run| - 1].newPhy
    else HandleNow(phy, run[..|run| - 1])
  }

  /** Which writes the host may count on. */
  predicate Accepted(phy: u8, c: Command) {
    c.Write? && (if c.reg == LinkSupervision then c.handle % 256 == phy else InAcceptRange(c.timeout))
  }

  /** The last accepted write to the register since the last reset that took effect, or the
      default. */
  function LastWritten(phy: u8, run: seq<Command>, reg: Register): u16 {
    if run == [] then Default(reg)
    else
      var before, c := run[..|run| - 1], run[|run| - 1];
      if c == Reset(true) then Default(reg)
      else if Accepted(HandleNow(phy, before), c) && c.reg == reg then c.timeout
      else LastWritten(phy, before, reg)
  }

  /** After every history of commands each register holds what the host last wrote to it and
      was told had been accepted; both accept time-outs are in range. */
  lemma {:induction false} RegistersHoldLastWritten(phy: u8, run: seq<Command>)
    ensures History(Defaults(phy), run) ==
            Registers(LastWritten(phy, run, ConnectionAccept), LastWritten(phy, run, LinkSupervision),
                      LastWritten(phy, run, LogicalLinkAccept), HandleNow(phy, run))
    ensures InAcceptRange(LastWritten(phy, run, ConnectionAccept))
    ensures InAcceptRange(LastWritten(phy, run, LogicalLinkAccept))
  {
    if run != [] {
      RegistersHoldLastWritten(phy, run[..|run| - 1]);
    }
  }

  /** Register refinement: over all histories, a read that succeeds returns the last accepted
      write since the last reset, else the default; the reads of the accept registers always
      succeed, that of the supervision register exactly under the link's handle. */
  lemma ReadReturnsLastWritten(phy: u8, run: seq<Command>, reg: Register, handle: u16)
    ensures var now := History(Defaults(phy), run);
            var (after, reply) := Execute(now, Read(reg, handle));
            && after == now && reply.Some?
            && (reply.value.status == STATUS_SUCCESS <==>
                  (reg == LinkSupervision ==> handle % 256 == HandleNow(phy, run)))
            && (reply.value.status == STATUS_SUCCESS ==>
                  reply.value.timeout == Some(LastWritten(phy, run, reg)))
  {
    RegistersHoldLastWritten(phy, run);
  }

  /** A write is answered with success exactly when it is one the host may count on; if not,
      nothing changes, and if so, nothing but its register. */
  lemma {:induction false} RejectedWritesChangeNothing(phy: u8, run: seq<Command>, reg: Register,
                                                       handle: u16, timeout: u16)
    ensures var now := History(Defaults(phy), run);
            var (after, reply) := Execute(now, Write(reg, handle, timeout));
            && reply.Some?
            && (reply.value.status == STATUS_SUCCESS <==>
                  Accepted(HandleNow(phy, run), Write(reg, handle, timeout)))
            && (reply.value.status != STATUS_SUCCESS ==> after == now)
            && (forall other :: other != reg ==>
                  Execute(after, Read(other, handle)).1 == Execute(now, Read(other, handle)).1)
  {
    RegistersHoldLastWritten(phy, run);
  }

  /** Every answer, in status codes: 0 for success, 0x12 for an invalid parameter; only a read
      carries a time-out, which is 0 when it is refused. Without the HAL a reset answers
      nothing. */
  lemma Answers(r: Registers, c: Command)
    ensures match (c, Execute(r, c).1)
            case (Reset(halPresent), reply) =>
              reply == if halPresent then Some(Reply(0x00, None)) else None
            case (Read(reg, handle), reply) =>
              reply.Some? && reply.value.timeout.Some? && reply.value.status in {0x00, 0x12} &&
              (reply.value.status == 0x12 ==> reply.value.timeout == Some(0)) &&
              (reply.value.status == 0x12 <==> reg == LinkSupervision && handle % 256 != r.phy)
            case (Write(reg, handle, timeout), reply) =>
              reply.Some? && reply.value.timeout == None && reply.value.status in {0x00, 0x12} &&
              (reply.value.status == 0x00 <==>
                 if reg == LinkSupervision then handle % 256 == r.phy else 0x01 <= timeout <= 0xB540)
            case (LinkMoves(_), reply) => reply == None
  {
  }

  /** What a reset restores: 8000 baseband slots for both accept time-outs, 16000 for link
      supervision. */
  lemma ResetRestores(r: Registers, handle: u16)
    ensures var after := Execute(r, Reset(true)).0;
            && Execute(after, Read(ConnectionAccept, handle)).1.value.timeout == Some(8000)
            && Execute(after, Read(LogicalLinkAccept, handle)).1.value.timeout == Some(8000)
            && (handle % 256 == r.phy ==>
                  Execute(after, Read(LinkSupervision, handle)).1.value.timeout == Some(16000))
  {
  }
}
