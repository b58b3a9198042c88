/** The commands a Bubble Tea model hands back to the runtime, as plain values. */
module Tea {
  /**
   * `nil`, `tea.Quit`, a metrics fetch, and a fetch batched with re-arming the refresh
   * tick.  The runtime that executes them is not part of this model.
   */
  datatype Cmd = NoCmd | Quit | Fetch | FetchAndTick
}
