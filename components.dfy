/** The panels of the terminal UI. */
module Components {

  /** `ComponentSettings` is the first-run credential screen, which the
      coordinator focuses but which is not one of the laid-out panels.
      `ComponentUnset` is Go's zero value (the empty string) that the
      selection and the focus hold until `Init` runs. */
  datatype Component =
    | ComponentHistory
    | ComponentMessages
    | ComponentChatInput
    | ComponentNone
    | ComponentSettings
    | ComponentUnset

  /** The keys of the coordinator's panel-to-container map: the panels
      drawn in the main layout. */
  const Layout: set<Component> := {ComponentHistory, ComponentMessages, ComponentChatInput}
}
