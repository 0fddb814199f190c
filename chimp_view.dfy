/**
 * The `AccessibilityIds` value nested in the `IChimpView` interface: the
 * window id and the node id that address one UI node. The rest of the
 * interface declares remote queries with no behaviour of their own.
 */
module ChimpView {
  import opened JavaTypes

  /**
   * Both fields are `final` in the source; a datatype value cannot change
   * after it is built. The widths are Java's: `int` and `long`.
   */
  datatype AccessibilityIds = AccessibilityIds(windowId: int32, nodeId: int64)

  /** `getWindowId()` */
  function GetWindowId(ids: AccessibilityIds): int32 {
    ids.windowId
  }

  /** `getNodeId()` */
  function GetNodeId(ids: AccessibilityIds): int64 {
    ids.nodeId
  }

  /** The no-argument constructor: both ids are zero. */
  function Unassigned(): (ids: AccessibilityIds)
    ensures GetWindowId(ids) == 0 && GetNodeId(ids) == 0
  {
    AccessibilityIds(0, 0)
  }

  /** The two-argument constructor: the getters give back exactly its arguments. */
  function Make(windowId: int32, nodeId: int64): (ids: AccessibilityIds)
    ensures GetWindowId(ids) == windowId
    ensures GetNodeId(ids) == nodeId
  {
    AccessibilityIds(windowId, nodeId)
  }

  /** Every window id fits a Java `int` and every node id a Java `long`. */
  lemma IdsFitJavaWidths(ids: AccessibilityIds)
    ensures -0x8000_0000 <= GetWindowId(ids) as int <= 0x7fff_ffff
    ensures -0x8000_0000_0000_0000 <= GetNodeId(ids) as int <= 0x7fff_ffff_ffff_ffff
  {
  }

  /**
   * The default is the sentinel for "no id assigned", yet through its getters
   * it cannot be told apart from a node that really sits at window 0, node 0.
   */
  lemma UnassignedLooksLikeOrigin()
    ensures GetWindowId(Unassigned()) == GetWindowId(Make(0, 0))
    ensures GetNodeId(Unassigned()) == GetNodeId(Make(0, 0))
  {
  }
}
