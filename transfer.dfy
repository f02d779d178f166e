/**
 * The claim / transfer / close sequence the activity runs once permission is
 * granted, as the ordered list of calls it makes. The platform's answers
 * (does the device open, does each claim succeed, what the bulk transfer
 * returns) are inputs.
 */
module Transfer {
  import opened Wrappers
  import opened Usb
  import opened Decimal

  const CommunicateTitle := "Communicate!"
  const RetryingMessage := "Retrying with force ..."
  const ClaimFailedTitle := "Could not claim interface, even with force."
  const ClaimFailedMessage := "Stopping attempts of claiming interface."
  const ResultTitle := "Result"

  /** The one-byte probe the transfer sends, and its timeout in milliseconds. */
  const ProbeBuffer: seq<int8> := [0]
  const TransferTimeout := 5000

  /** The chosen device, interface and endpoint. */
  datatype Target = Target(device: Device, iface: Iface, endpoint: Endpoint)

  /** What the platform answers to open, the plain claim, the forced claim and the transfer. */
  datatype Answers = Answers(deviceOpens: bool, claimed: bool, forceClaimed: bool, transferred: int32)

  /**
   * How the sequence ends. `NoConnection`: the open gave no connection and
   * the next call dereferences it (the sequence stops there).
   */
  datatype Outcome = NoConnection | ClaimFailed | Transferred(result: int32)

  /** The message naming the device, interface and endpoint before the attempt. */
  function CommunicateMessage(device: Device, t: Target): string
  {
    device.name + ", " + JavaText(t.iface.name) + ", " + FromInt(t.endpoint.address)
  }

  /** Report the target, then open the selected device. */
  function Opening(device: Device, t: Target): seq<Event>
  {
    [Info(CommunicateTitle, CommunicateMessage(device, t)), OpenDevice(t.device)]
  }

  /** The plain claim, and the forced one only when the plain one fails. */
  function Claiming(t: Target, answers: Answers): seq<Event>
  {
    if answers.claimed then [ClaimInterface(t.iface, false)]
    else [ClaimInterface(t.iface, false), Info(InformationTitle, RetryingMessage), ClaimInterface(t.iface, true)]
  }

  /** Both claims failed: report and stop (the connection stays open). */
  function GivingUp(): seq<Event>
  {
    [Info(ClaimFailedTitle, ClaimFailedMessage)]
  }

  /** Send the probe, report the result in decimal, close. */
  function Probing(t: Target, answers: Answers): seq<Event>
  {
    [BulkTransfer(t.endpoint, ProbeBuffer, |ProbeBuffer|, TransferTimeout),
     Info(ResultTitle, FromInt(answers.transferred)),
     Close]
  }

  /**
   * The calls `communicate(device)` makes with target `t` selected: report,
   * open the selected device, plain claim, forced claim only if that fails,
   * then either stop or transfer the probe, report the result and close.
   */
  function CommunicateEvents(device: Device, t: Target, answers: Answers): seq<Event>
  {
    if !answers.deviceOpens then Opening(device, t)
    else Opening(device, t) + Claiming(t, answers) + Ending(answers, t)
  }

  /** What follows the claims: the give-up report, or the probe. */
  function Ending(answers: Answers, t: Target): seq<Event>
  {
    if !answers.claimed && !answers.forceClaimed then GivingUp() else Probing(t, answers)
  }

  function CommunicateOutcome(answers: Answers): Outcome
  {
    if !answers.deviceOpens then NoConnection
    else if !answers.claimed && !answers.forceClaimed then ClaimFailed
    else Transferred(answers.transferred)
  }

  // ----- properties of the sequence -----

  /** A claim succeeded, so the probe is sent. */
  predicate Claimed(answers: Answers)
  {
    answers.deviceOpens && (answers.claimed || answers.forceClaimed)
  }

  /**
   * The report naming the target comes first, and then the selected device
   * (not the `device` argument) is opened, exactly once.
   */
  lemma OpensSelectedDeviceOnce(device: Device, t: Target, answers: Answers)
    ensures var events := CommunicateEvents(device, t, answers);
      Count(events, OpenKind) == 1 &&
      events[0] == Info(CommunicateTitle, CommunicateMessage(device, t)) &&
      events[1] == OpenDevice(t.device)
  {
    SplitCounts(device, t, answers, OpenKind);
  }

  /**
   * The plain claim is always tried first once the device is open; the
   * forced claim follows only when it fails, and at most once.
   */
  lemma ClaimAttempts(device: Device, t: Target, answers: Answers)
    ensures var events := CommunicateEvents(device, t, answers);
      Count(events, ClaimKind) == (if !answers.deviceOpens then 0 else if answers.claimed then 1 else 2) &&
      (answers.deviceOpens ==> events[2] == ClaimInterface(t.iface, false)) &&
      (answers.deviceOpens && !answers.claimed ==> events[4] == ClaimInterface(t.iface, true))
  {
    SplitCounts(device, t, answers, ClaimKind);
  }

  /**
   * There is one bulk transfer exactly when a claim succeeded: the one-byte
   * zero probe, length 1, timeout 5000, on the selected endpoint.
   */
  lemma TransferCount(device: Device, t: Target, answers: Answers)
    ensures var events := CommunicateEvents(device, t, answers);
      Count(events, BulkKind) == (if Claimed(answers) then 1 else 0) &&
      (Claimed(answers) ==> events[|events| - 3] == BulkTransfer(t.endpoint, [0], 1, 5000))
  {
    SplitCounts(device, t, answers, BulkKind);
  }

  /** The connection is closed once when a claim succeeded, and never otherwise. */
  lemma CloseCount(device: Device, t: Target, answers: Answers)
    ensures Count(CommunicateEvents(device, t, answers), CloseKind) == if Claimed(answers) then 1 else 0
  {
    SplitCounts(device, t, answers, CloseKind);
  }

  /** The sequence never asks for permission or shows a picker. */
  lemma NoPromptsDuringTransfer(device: Device, t: Target, answers: Answers)
    ensures Count(CommunicateEvents(device, t, answers), PermissionKind) == 0
    ensures Count(CommunicateEvents(device, t, answers), ShowKind) == 0
  {
    SplitCounts(device, t, answers, PermissionKind);
    SplitCounts(device, t, answers, ShowKind);
  }

  /**
   * How the sequence ends: at the open when there is no connection, at the
   * give-up report when both claims fail, and otherwise with the result,
   * in decimal, followed by the close.
   */
  lemma LastEvents(device: Device, t: Target, answers: Answers)
    ensures var events := CommunicateEvents(device, t, answers);
      |events| >= 2 &&
      (!answers.deviceOpens ==> events[|events| - 1] == OpenDevice(t.device)) &&
      (answers.deviceOpens && !Claimed(answers) ==> events[|events| - 1] == Info(ClaimFailedTitle, ClaimFailedMessage)) &&
      (Claimed(answers) ==>
        events[|events| - 1] == Close &&
        events[|events| - 2].Info? && events[|events| - 2].title == ResultTitle &&
        ToInt(events[|events| - 2].message) == Some(answers.transferred as int))
  {
    RoundTrip(answers.transferred);
  }

  /** When both claims fail, nothing is transferred and the connection is not closed. */
  lemma NoTransferWithoutClaim(device: Device, t: Target, answers: Answers)
    requires answers.deviceOpens && !answers.claimed && !answers.forceClaimed
    ensures var events := CommunicateEvents(device, t, answers);
      Count(events, BulkKind) == 0 && Count(events, CloseKind) == 0 &&
      events[|events| - 1] == Info(ClaimFailedTitle, ClaimFailedMessage) &&
      CommunicateOutcome(answers) == ClaimFailed
  {
    TransferCount(device, t, answers);
    CloseCount(device, t, answers);
    LastEvents(device, t, answers);
  }

  /**
   * When a claim succeeds there is exactly one bulk transfer, of the
   * one-byte zero probe with length 1 and timeout 5000 on the selected
   * endpoint; the sequence ends by reporting the result in decimal and
   * closing, once.
   */
  lemma SingleProbeTransfer(device: Device, t: Target, answers: Answers)
    requires answers.deviceOpens && (answers.claimed || answers.forceClaimed)
    ensures var events := CommunicateEvents(device, t, answers);
      Count(events, BulkKind) == 1 && events[|events| - 3] == BulkTransfer(t.endpoint, [0], 1, 5000) &&
      Count(events, CloseKind) == 1 && events[|events| - 1] == Close &&
      events[|events| - 2].Info? && events[|events| - 2].title == ResultTitle &&
      ToInt(events[|events| - 2].message) == Some(answers.transferred as int) &&
      CommunicateOutcome(answers) == Transferred(answers.transferred)
  {
    TransferCount(device, t, answers);
    CloseCount(device, t, answers);
    LastEvents(device, t, answers);
  }

  /** When the open gives no connection, nothing is claimed, transferred or closed. */
  lemma NothingAfterFailedOpen(device: Device, t: Target, answers: Answers)
    requires !answers.deviceOpens
    ensures var events := CommunicateEvents(device, t, answers);
      Count(events, ClaimKind) == 0 && Count(events, BulkKind) == 0 && Count(events, CloseKind) == 0 &&
      events[|events| - 1] == OpenDevice(t.device) &&
      CommunicateOutcome(answers) == NoConnection
  {
    ClaimAttempts(device, t, answers);
    TransferCount(device, t, answers);
    CloseCount(device, t, answers);
    LastEvents(device, t, answers);
  }

  // ----- counting the sequence piece by piece -----

  /** The counts of the pieces, for one kind; callers combine them for a concrete kind. */
  lemma SplitCounts(device: Device, t: Target, answers: Answers, k: EventKind)
    ensures Count(CommunicateEvents(device, t, answers), k) ==
      Count(Opening(device, t), k) +
      (if !answers.deviceOpens then 0 else Count(Claiming(t, answers), k) + Count(Ending(answers, t), k))
    ensures Count(Opening(device, t), k) ==
      Tally(Info(CommunicateTitle, CommunicateMessage(device, t)), k) + Tally(OpenDevice(t.device), k)
    ensures Count(Claiming(t, answers), k) ==
      if answers.claimed then Tally(ClaimInterface(t.iface, false), k)
      else Tally(ClaimInterface(t.iface, false), k) + Tally(Info(InformationTitle, RetryingMessage), k) +
           Tally(ClaimInterface(t.iface, true), k)
    ensures Count(GivingUp(), k) == Tally(Info(ClaimFailedTitle, ClaimFailedMessage), k)
    ensures Count(Probing(t, answers), k) ==
      Tally(BulkTransfer(t.endpoint, ProbeBuffer, |ProbeBuffer|, TransferTimeout), k) +
      Tally(Info(ResultTitle, FromInt(answers.transferred)), k) + Tally(Close, k)
  {
    var opening, claiming := Opening(device, t), Claiming(t, answers);
    if answers.deviceOpens {
      CountConcat(opening, claiming, k);
      CountConcat(opening + claiming, Ending(answers, t), k);
    }
    CountTwo(opening[0], opening[1], k);
    if answers.claimed {
      CountOne(claiming[0], k);
    } else {
      CountThree(claiming[0], claiming[1], claiming[2], k);
    }
    CountOne(GivingUp()[0], k);
    var probing := Probing(t, answers);
    CountThree(probing[0], probing[1], probing[2], k);
  }
}
