/**
 * The drop check: whether a part may go into a slot, given the parts already
 * in the build. Two attribute pairs are checked, each from both sides:
 * the socket shared by processor and motherboard, and the memory type shared
 * by motherboard and memory. Attributes are compared as optional values, so
 * an attribute missing on one side clashes with one present on the other.
 */
module Compatibility {

  import opened Wrappers
  import opened Parts

  /** Why a drop was refused; each reason carries the two values that differ. */
  datatype Rejection =
    | CpuSocketClash(cpuSocket: Option<string>, boardSocket: Option<string>)
    | BoardSocketClash(boardSocket: Option<string>, cpuSocket: Option<string>)
    | BoardRamTypeClash(boardRamType: Option<string>, ramRamType: Option<string>)
    | SelectedRamClash(ramRamType: Option<string>, boardRamType: Option<string>)

  datatype Verdict = Accepted | Rejected(reason: Rejection)

  /** `reason` truthfully describes a clash that putting `item` into slot `key` of `build` would create. */
  predicate Conflict(build: map<string, Part>, item: Part, key: string, reason: Rejection) {
    match reason
    case CpuSocketClash(cpu, board) =>
      key == Motherboard && Cpu in build && cpu == build[Cpu].socket && board == item.socket && cpu != board
    case BoardSocketClash(board, cpu) =>
      key == Cpu && Motherboard in build && board == build[Motherboard].socket && cpu == item.socket && board != cpu
    case BoardRamTypeClash(board, ram) =>
      key == Ram && Motherboard in build && board == build[Motherboard].ramType && ram == item.ramType && board != ram
    case SelectedRamClash(ram, board) =>
      key == Motherboard && Ram in build && ram == build[Ram].ramType && board == item.ramType && ram != board
  }

  /**
   * The four checks, in the source's order; the first that fails gives the
   * reason. The slot key is not compared with the part's own kind.
   */
  function ValidateDrop(build: map<string, Part>, item: Part, key: string): (v: Verdict)
    ensures v.Rejected? ==> Conflict(build, item, key, v.reason)
    ensures v.Accepted? <==> forall r :: !Conflict(build, item, key, r)
    ensures key != Cpu && key != Motherboard && key != Ram ==> v == Accepted
  {
    if key == Motherboard && Cpu in build && build[Cpu].socket != item.socket then
      assert Conflict(build, item, key, CpuSocketClash(build[Cpu].socket, item.socket));
      Rejected(CpuSocketClash(build[Cpu].socket, item.socket))
    else if key == Cpu && Motherboard in build && build[Motherboard].socket != item.socket then
      assert Conflict(build, item, key, BoardSocketClash(build[Motherboard].socket, item.socket));
      Rejected(BoardSocketClash(build[Motherboard].socket, item.socket))
    else if key == Ram && Motherboard in build && build[Motherboard].ramType != item.ramType then
      assert Conflict(build, item, key, BoardRamTypeClash(build[Motherboard].ramType, item.ramType));
      Rejected(BoardRamTypeClash(build[Motherboard].ramType, item.ramType))
    else if key == Motherboard && Ram in build && build[Ram].ramType != item.ramType then
      assert Conflict(build, item, key, SelectedRamClash(build[Ram].ramType, item.ramType));
      Rejected(SelectedRamClash(build[Ram].ramType, item.ramType))
    else
      Accepted
  }

  /** The pairs the checks guard agree in `build`. */
  predicate Consistent(build: map<string, Part>) {
    && (Cpu in build && Motherboard in build ==> build[Cpu].socket == build[Motherboard].socket)
    && (Ram in build && Motherboard in build ==> build[Ram].ramType == build[Motherboard].ramType)
  }

  /** A drop the check lets through never breaks an agreement that already held. */
  lemma AcceptedDropKeepsConsistent(build: map<string, Part>, item: Part, key: string)
    requires Consistent(build)
    requires ValidateDrop(build, item, key).Accepted?
    ensures Consistent(build[key := item])
  {
  }

  /** Taking a part out never breaks an agreement. */
  lemma RemovalKeepsConsistent(build: map<string, Part>, key: string)
    requires Consistent(build)
    ensures Consistent(build - {key})
  {
  }

  /**
   * The socket check works from both sides: a processor and a motherboard
   * whose sockets differ are refused whichever of the two is placed second.
   */
  lemma SocketClashIsSymmetric(build: map<string, Part>, cpu: Part, board: Part)
    requires cpu.socket != board.socket
    ensures ValidateDrop(build[Cpu := cpu], board, Motherboard) == Rejected(CpuSocketClash(cpu.socket, board.socket))
    ensures ValidateDrop(build[Motherboard := board], cpu, Cpu) == Rejected(BoardSocketClash(board.socket, cpu.socket))
  {
  }

  /**
   * The memory-type check works from both sides: memory refused by the
   * motherboard already placed, or a motherboard refused by the memory
   * already placed (when the processor socket does not clash first).
   */
  lemma RamTypeClashIsSymmetric(build: map<string, Part>, ram: Part, board: Part)
    requires ram.ramType != board.ramType
    requires Cpu in build ==> build[Cpu].socket == board.socket
    ensures ValidateDrop(build[Motherboard := board], ram, Ram) == Rejected(BoardRamTypeClash(board.ramType, ram.ramType))
    ensures ValidateDrop(build[Ram := ram], board, Motherboard) == Rejected(SelectedRamClash(ram.ramType, board.ramType))
  {
  }

  /** A processor and a motherboard with the same socket go into an empty build in either order. */
  lemma MatchingSocketsAcceptedEitherOrder(cpu: Part, board: Part)
    requires cpu.socket == board.socket
    ensures ValidateDrop(map[], cpu, Cpu) == Accepted
    ensures ValidateDrop(map[Cpu := cpu], board, Motherboard) == Accepted
    ensures ValidateDrop(map[], board, Motherboard) == Accepted
    ensures ValidateDrop(map[Motherboard := board], cpu, Cpu) == Accepted
  {
  }

  /**
   * When a motherboard clashes with both the processor and the memory, the
   * socket clash is the one reported.
   */
  lemma SocketClashReportedFirst(build: map<string, Part>, board: Part)
    requires Cpu in build && build[Cpu].socket != board.socket
    requires Ram in build && build[Ram].ramType != board.ramType
    ensures ValidateDrop(build, board, Motherboard).reason.CpuSocketClash?
  {
  }
}
