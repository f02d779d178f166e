# USB explorer activity — a Dafny model

The Android app `net.karmacoder.usb` lists the USB accessories and devices attached to the host. The user picks a device, then one of its interfaces, then one of that interface's endpoints. The app asks for permission to use the device. When permission is granted it claims the interface, falling back to a forced claim once, sends a one-byte probe with a bulk transfer and reports the result.

This project models that selection → permission → transfer state machine from `MainActivity.java` and proves properties of it. The Android objects become plain values. Each dialog shown (a picker or a message), each permission request and each of the USB calls `openDevice`, `claimInterface`, `bulkTransfer` and `close` becomes an `Event` appended to a trace. What the platform answers to those four calls (does the device open, does each claim succeed, what the transfer returns) is an input (`Transfer.Answers`). The accessory list and the device list the platform reports are the inputs of `Enumerate`.

- `Wrappers`: `Option`, standing for a Java reference that may be null.
- `Usb` (usb.dfy): the data model (`Accessory`, `Device`, `Iface`, `Endpoint`), the `Event` trace alphabet, `Count` of events of one kind, and how Java string concatenation renders null.
- `Decimal` (decimal.dfy): Java's `"" + n` for an `int`, with a parser as its partner.
- `Pickers` (pickers.dfy): the labels each of the three pickers lists, the loops that build them, and how a device-picker index maps back to an accessory or a device.
- `Transfer` (transfer.dfy): the calls `communicate` makes, as a function of the selected target and the platform's answers.
- `Permission` (permission.dfy): what one permission-result broadcast leads to.
- `Activity` (activity.dfy): class `MainActivity`, holding the three fields `selectedDevice`, `selectedInterface` and `selectedEndpoint` and the trace. Its methods are the bodies of the picker listeners and of the receiver. Each listener's captured variables are passed as parameters.

What the code does that a reader might not expect; the model follows the code:
- The connection is not closed when both claims fail: the code returns right after the give-up report (lines 88-90). `Transfer.CloseCount` proves there is no close on that path.
- The result of `openDevice` is never checked for null (line 84), so when the device cannot be opened the next call dereferences null. The model stops the sequence right after the open with outcome `NoConnection`, and nothing is reported.
- `communicate` opens the `selectedDevice` field, not the device it is passed; its `device` argument only appears in the first message (lines 81, 84). `Transfer.OpensSelectedDeviceOnce` states which device is opened.

## Model

| member | source | states |
|---|---|---|
| `Pickers.DeviceItems` | app/src/main/java/net/karmacoder/usb/MainActivity.java:112-137 | the device picker's items are exactly `DeviceLabels`: null lists count as empty, descriptions then names, copied into the item array |
| `Pickers.CollectDescriptions` | app/src/main/java/net/karmacoder/usb/MainActivity.java:118-122 | the loop over the accessories yields their descriptions in list order |
| `Pickers.CollectNames` | app/src/main/java/net/karmacoder/usb/MainActivity.java:124-128 | the loop over the devices yields their names in list order |
| `Pickers.CopyItems` | app/src/main/java/net/karmacoder/usb/MainActivity.java:134-137 | the array handed to the dialog holds the collected labels unchanged, slot by slot |
| `Pickers.DeviceLabelsShape` | app/src/main/java/net/karmacoder/usb/MainActivity.java:112-137 | with no accessories and no devices (or null lists) the labels are exactly `["<NOTHING FOUND>"]`; otherwise there is one label per item, accessory descriptions in order at `0..a-1`, then device names in order at `a..a+d-1` |
| `Pickers.DeviceChoiceMatchesLabel` | app/src/main/java/net/karmacoder/usb/MainActivity.java:143-157 | for every listed index: the sentinel is dismissed (and only the sentinel is); an index below the accessory count picks that accessory, whose description is the label; any other index picks device `index - accessoryCount`, whose name is the label |
| `Pickers.CollectInterfaces` | app/src/main/java/net/karmacoder/usb/MainActivity.java:152-155 | the interfaces are copied by index `0..count-1`, in order and complete |
| `Pickers.InterfaceItems` | app/src/main/java/net/karmacoder/usb/MainActivity.java:168-180 | the interface picker's items are exactly `InterfaceLabels` |
| `Pickers.InterfaceLabelsShape` | app/src/main/java/net/karmacoder/usb/MainActivity.java:168-180 | an empty interface list gives exactly `["none"]`; otherwise label `i` is interface `i`'s name, or its `toString()` text when the name is null |
| `Pickers.CollectEndpoints` | app/src/main/java/net/karmacoder/usb/MainActivity.java:192-195 | the endpoints are copied by index `0..count-1`, in order and complete |
| `Pickers.EndpointItems` | app/src/main/java/net/karmacoder/usb/MainActivity.java:213-221 | the endpoint picker's items are exactly `EndpointLabels` |
| `Pickers.EndpointLabelsShape` | app/src/main/java/net/karmacoder/usb/MainActivity.java:213-221 | an empty endpoint list gives exactly `["none"]`; otherwise label `i` is the decimal form of endpoint `i`'s address and reads back as that address |
| `Decimal.NatDigits` | app/src/main/java/net/karmacoder/usb/MainActivity.java:219 | the digits of a natural number are non-empty decimal digits, one digit exactly below 10, with a leading zero only for zero |
| `Decimal.RoundTrip` | app/src/main/java/net/karmacoder/usb/MainActivity.java:97 | parsing the decimal rendering of any integer gives that integer back |
| `Decimal.Injective` | app/src/main/java/net/karmacoder/usb/MainActivity.java:219 | distinct integers (addresses, results) get distinct labels |
| `Decimal.Canonical` | app/src/main/java/net/karmacoder/usb/MainActivity.java:97 | the rendering has a minus sign exactly for negatives and no leading zero except for zero |
| `Activity.MainActivity.constructor` | app/src/main/java/net/karmacoder/usb/MainActivity.java:41-43 | the three selected fields start null and nothing has happened yet; this establishes the class invariant `Valid()` (all three fields set or none), which every method keeps |
| `Activity.MainActivity.Enumerate` | app/src/main/java/net/karmacoder/usb/MainActivity.java:69-78 | the platform's accessory array (possibly null) and the device map's values, in the map's order, are shown as the device picker |
| `Activity.MainActivity.Select` | app/src/main/java/net/karmacoder/usb/MainActivity.java:112-165 | one picker titled "Connected USB" is shown, listing `DeviceLabels`; no field changes |
| `Activity.MainActivity.OnDeviceClick` | app/src/main/java/net/karmacoder/usb/MainActivity.java:142-160 | an index at or past accessoryCount + deviceCount changes nothing and opens no picker; an accessory index only reports that accessory's text; a device index shows that device's interface picker, listing its interfaces in order; the same outcome is stated through `PickDevice`, the dispatch that `Pickers.DeviceChoiceMatchesLabel` ties to the clicked label; no selected field changes |
| `Activity.MainActivity.SelectInterface` | app/src/main/java/net/karmacoder/usb/MainActivity.java:167-209 | one picker with the device's title is shown, listing `InterfaceLabels` |
| `Activity.MainActivity.OnInterfaceClick` | app/src/main/java/net/karmacoder/usb/MainActivity.java:185-198 | an index at or past the list size changes nothing; otherwise the endpoint picker, titled "interface: " and the name ("null" when missing), lists that interface's endpoints in order |
| `Activity.MainActivity.SelectEndpoint` | app/src/main/java/net/karmacoder/usb/MainActivity.java:211-245 | one picker with the given title is shown, listing `EndpointLabels` |
| `Activity.MainActivity.OnEndpointClick` | app/src/main/java/net/karmacoder/usb/MainActivity.java:226-240 | an index at or past the list size changes no field and issues nothing; otherwise the fields hold exactly the chosen (device, interface, endpoint), and one permission request for that device is issued; this is the only method that writes the fields, and it writes all three together, so `Valid()` is kept |
| `Activity.MainActivity.OnReceive` | app/src/main/java/net/karmacoder/usb/MainActivity.java:23-38 | the receiver's calls and outcome are `ReceiveEvents`/`ReceiveOutcome` of the broadcast and the recorded selection; the selection is left complete |
| `Activity.MainActivity.Communicate` | app/src/main/java/net/karmacoder/usb/MainActivity.java:80-99 | the calls made are `CommunicateEvents` of the selected target and the platform's answers, and the outcome is `CommunicateOutcome` |
| `Permission.GrantCommunicatesOnce` | app/src/main/java/net/karmacoder/usb/MainActivity.java:25-32 | a permission grant that carries a device runs the transfer sequence exactly once, so the selected device is opened exactly once, and its outcome is the receiver's |
| `Permission.OnlyGrantsCommunicate` | app/src/main/java/net/karmacoder/usb/MainActivity.java:25-35 | any other broadcast opens nothing and has no outcome; a grant without a device and a foreign action do nothing at all; a denial makes exactly one "permission denied for device …" report |
| `Transfer.OpensSelectedDeviceOnce` | app/src/main/java/net/karmacoder/usb/MainActivity.java:81-84 | the sequence starts with the report naming the target, then opens the selected device, not the argument; there is exactly one open |
| `Transfer.ClaimAttempts` | app/src/main/java/net/karmacoder/usb/MainActivity.java:86-92 | once open, the non-forced claim is always the first claim; a forced claim follows only when it fails; there are at most two claims, so at most one forced |
| `Transfer.TransferCount` | app/src/main/java/net/karmacoder/usb/MainActivity.java:94-95 | there is exactly one bulk transfer when a claim succeeded, and none otherwise; it is buffer `[0]`, length 1, timeout 5000 on the selected endpoint |
| `Transfer.CloseCount` | app/src/main/java/net/karmacoder/usb/MainActivity.java:86-98 | the connection is closed exactly once when a claim succeeded, and never when both claims fail or the open gave nothing |
| `Transfer.NoPromptsDuringTransfer` | app/src/main/java/net/karmacoder/usb/MainActivity.java:80-99 | the transfer sequence issues no permission request and shows no picker |
| `Transfer.LastEvents` | app/src/main/java/net/karmacoder/usb/MainActivity.java:84-98 | the sequence ends at the open when there is no connection, at the give-up report when both claims fail, and otherwise with the "Result" report (which reads back as the transfer's integer) followed by the close |
| `Transfer.NoTransferWithoutClaim` | app/src/main/java/net/karmacoder/usb/MainActivity.java:88-91 | when both claims fail there is no transfer and no close, the last call is the give-up report, and the outcome is `ClaimFailed` |
| `Transfer.SingleProbeTransfer` | app/src/main/java/net/karmacoder/usb/MainActivity.java:94-98 | when a claim succeeds there is one probe transfer `[0]`/1/5000, then the decimal result report, then one close, which ends the sequence; the outcome carries the result |
| `Transfer.NothingAfterFailedOpen` | app/src/main/java/net/karmacoder/usb/MainActivity.java:84-86 | when the open yields no connection, nothing is claimed, transferred or closed, and the outcome is `NoConnection` |

## Left out

- Activity lifecycle and layout wiring (`onCreate`, including its "Device Connected!" message, `setContentView`, the button listener): UI plumbing. The button's effect is `Enumerate`.
- Dialog rendering (`AlertDialog.Builder`, `show`, `dismiss`): a picker is the `ShowList` event with its title and items, and a message is the `Info` event. Which dialog is on screen, and the dismissal at line 159, are not modelled.
- `BroadcastReceiver` registration, `PendingIntent`, `IntentFilter` and the `synchronized` block: platform delivery and concurrency. A broadcast is a direct input to `OnReceive`. The receiver is registered again on every endpoint choice, and the model does not track those registrations.
- Activity.MainActivity.OnReceive: it requires a complete selection, because the receiver is registered only after the three fields are written (lines 231-238). A broadcast arriving before any selection is not modelled.
- Real USB I/O is platform code. `openDevice`, `claimInterface`, `bulkTransfer` and `close` are trace events, and their answers are `Transfer.Answers`. `getAccessoryList` and `getDeviceList` are not events: their results are the parameters of `Enumerate`, and since the devices come from a `HashMap`, their order is an input sequence. `getSystemService` is not modelled.
- The `String.format` title of the interface picker (lines 201-207) and every `toString()`: locale- and library-dependent text. These are the opaque fields `Device.header`, `Device.text`, `Iface.text` and `Accessory.text`.
- The NullPointerException raised when `openDevice` returns null is not modelled as an exception. The sequence ends there with outcome `NoConnection`.
- Activity.MainActivity.Communicate: it collects one attempt's calls in order and appends them to the trace at each exit, instead of one at a time. Nothing reads the trace in between, so the final trace is the same.
- Click indices are natural numbers, since a list dialog only reports positions it lists. A negative index would make the Java code throw, and that is not modelled.
- `getDescription()` and `getDeviceName()` are taken as non-null strings.
- Nothing in the code stops a second permission request while one is pending, and the model does not restrict it either.
