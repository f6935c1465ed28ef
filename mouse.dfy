/** The part of a bubbletea message the widgets look at: whether it is a
    mouse message, which button, and which action. Whether a click falls
    inside a bubblezone mark is decided by the terminal layout, outside the
    model; the widgets take it as an input. */
module Mouse {
  datatype MouseButton = LeftButton | OtherButton

  datatype MouseAction = Press | Release | Motion

  /** `Other` stands for every message that is not a `tea.MouseMsg`. */
  datatype Msg = MouseMsg(button: MouseButton, action: MouseAction) | Other

  /** A left-button mouse message, whatever the action. */
  predicate IsLeft(msg: Msg)
  {
    msg.MouseMsg? && msg.button == LeftButton
  }

  /** A left-button release. */
  predicate IsLeftRelease(msg: Msg)
  {
    msg.MouseMsg? && msg.button == LeftButton && msg.action == Release
  }
}
