/**
 * The permission receiver: what one permission-result broadcast leads to,
 * given the selection recorded before the request was issued.
 */
module Permission {
  import opened Wrappers
  import opened Usb
  import opened Transfer

  const ActionUsbPermission := "com.android.example.USB_PERMISSION"
  const ErrorTitle := "error"
  const DeniedPrefix := "permission denied for device "

  /** One broadcast as the receiver sees it; `granted` is false when the extra is missing. */
  datatype Broadcast = Broadcast(action: string, granted: bool, device: Option<Device>)

  /** The broadcast grants access and carries a device, so `communicate` runs. */
  predicate Grants(b: Broadcast)
  {
    b.action == ActionUsbPermission && b.granted && b.device.Some?
  }

  /** The calls the receiver makes for broadcast `b` with target `t` selected. */
  function ReceiveEvents(b: Broadcast, t: Target, answers: Answers): seq<Event>
  {
    if b.action != ActionUsbPermission then []
    else if b.granted then (if b.device.Some? then CommunicateEvents(b.device.value, t, answers) else [])
    else [Info(ErrorTitle, DeniedPrefix + DeviceText(b.device))]
  }

  /** How the receiver ends: the transfer's outcome when it ran one. */
  function ReceiveOutcome(b: Broadcast, answers: Answers): Option<Outcome>
  {
    if Grants(b) then Some(CommunicateOutcome(answers)) else None
  }

  /**
   * A grant with a device runs the transfer sequence exactly once: one open
   * of the selected device, and its outcome is the receiver's.
   */
  lemma GrantCommunicatesOnce(b: Broadcast, t: Target, answers: Answers)
    requires Grants(b)
    ensures ReceiveEvents(b, t, answers) == CommunicateEvents(b.device.value, t, answers)
    ensures Count(ReceiveEvents(b, t, answers), OpenKind) == 1
    ensures ReceiveOutcome(b, answers) == Some(CommunicateOutcome(answers))
  {
    OpensSelectedDeviceOnce(b.device.value, t, answers);
  }

  /**
   * Only a grant with a device opens anything: a grant without a device and
   * any other action do nothing at all, and a denial makes exactly one
   * report naming the device ("null" when there is none).
   */
  lemma OnlyGrantsCommunicate(b: Broadcast, t: Target, answers: Answers)
    requires !Grants(b)
    ensures Count(ReceiveEvents(b, t, answers), OpenKind) == 0
    ensures ReceiveOutcome(b, answers) == None
    ensures b.action != ActionUsbPermission || b.granted ==> ReceiveEvents(b, t, answers) == []
    ensures b.action == ActionUsbPermission && !b.granted ==>
      ReceiveEvents(b, t, answers) == [Info(ErrorTitle, DeniedPrefix + DeviceText(b.device))]
  {
  }
}
