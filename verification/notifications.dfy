/** The icon chosen for an on-screen notification (script.js). */
module Notifications {

  const SUCCESS_ICON: string := "check-circle"
  const ERROR_ICON: string := "exclamation-circle"
  const WARNING_ICON: string := "exclamation-triangle"
  const INFO_ICON: string := "info-circle"

  /** getNotificationIcon: a fixed lookup with the info icon for every other kind. */
  function NotificationIcon(kind: string): (icon: string)
    ensures icon in {SUCCESS_ICON, ERROR_ICON, WARNING_ICON, INFO_ICON}
    ensures icon == SUCCESS_ICON <==> kind == "success"
    ensures icon == ERROR_ICON <==> kind == "error"
    ensures icon == WARNING_ICON <==> kind == "warning"
    ensures icon == INFO_ICON <==> kind != "success" && kind != "error" && kind != "warning"
  {
    if kind == "success" then SUCCESS_ICON
    else if kind == "error" then ERROR_ICON
    else if kind == "warning" then WARNING_ICON
    else INFO_ICON
  }
}
