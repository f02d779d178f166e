/**
 * The activity: the three fields the endpoint picker writes, the trace of
 * calls it has made, and the bodies of its picker listeners and its
 * permission receiver. A listener's captured variables are its parameters.
 */
module Activity {
  import opened Wrappers
  import opened Usb
  import opened Decimal
  import opened Pickers
  import opened Transfer
  import opened Permission

  class MainActivity {
    var selectedDevice: Option<Device>
    var selectedInterface: Option<Iface>
    var selectedEndpoint: Option<Endpoint>
    /** Every dialog, permission request and USB call so far, in order. */
    var trace: seq<Event>

    /**
     * The class invariant: the three fields are only ever written together,
     * so either none or all of them are set.
     */
    ghost predicate Valid()
      reads this
    {
      selectedDevice.Some? == selectedInterface.Some? &&
      selectedInterface.Some? == selectedEndpoint.Some?
    }

    /** An endpoint has been chosen, so a permission request is outstanding. */
    predicate Selected()
      reads this
    {
      selectedDevice.Some? && selectedInterface.Some? && selectedEndpoint.Some?
    }

    function Target(): Target
      reads this
      requires Selected()
    {
      Transfer.Target(selectedDevice.value, selectedInterface.value, selectedEndpoint.value)
    }

    constructor ()
      ensures Valid() && !Selected() && trace == []
      ensures selectedDevice.None? && selectedInterface.None? && selectedEndpoint.None?
    {
      selectedDevice, selectedInterface, selectedEndpoint := None, None, None;
      trace := [];
    }

    /**
     * The enumerate button: the platform's accessory array (null when there
     * is none) and its device map's values, in the order the map yields them.
     */
    method Enumerate(accessoryArray: Option<seq<Accessory>>, deviceMap: seq<Device>)
      requires Valid()
      modifies this`trace
      ensures Valid()
      ensures trace == old(trace) + [ShowList(ConnectedUsb, DeviceLabels(accessoryArray, Some(deviceMap)))]
    {
      Select(accessoryArray, Some(deviceMap));
    }

    /** Shows the device picker. */
    method Select(accessories: Option<seq<Accessory>>, devices: Option<seq<Device>>)
      requires Valid()
      modifies this`trace
      ensures Valid()
      ensures trace == old(trace) + [ShowList(ConnectedUsb, DeviceLabels(accessories, devices))]
    {
      var items := DeviceItems(accessories, devices);
      trace := trace + [ShowList(ConnectedUsb, items)];
    }

    /**
     * A click at `index` on the device picker: past the real items nothing
     * happens; an accessory is only described; a device opens the interface
     * picker over its interfaces in index order. No selected field changes.
     */
    method OnDeviceClick(accessories: Option<seq<Accessory>>, devices: Option<seq<Device>>, index: nat)
      requires Valid()
      modifies this`trace
      ensures Valid()
      ensures var a, d := Present(accessories), Present(devices);
        (index >= |a| + |d| ==> trace == old(trace)) &&
        (index < |a| ==> trace == old(trace) + [Info(InformationTitle, a[index].text)]) &&
        (|a| <= index < |a| + |d| ==>
          trace == old(trace) + [ShowList(d[index - |a|].header, InterfaceLabels(d[index - |a|].interfaces))])
      // the same dispatch through `PickDevice`, which `DeviceChoiceMatchesLabel` ties to the label clicked
      ensures match PickDevice(accessories, devices, index)
        case Dismissed => trace == old(trace)
        case ShowAccessory(x) => trace == old(trace) + [Info(InformationTitle, x.text)]
        case ShowDevice(x) => trace == old(trace) + [ShowList(x.header, InterfaceLabels(x.interfaces))]
    {
      var accessoryCount := if accessories.Some? then |accessories.value| else 0;
      var deviceCount := if devices.Some? then |devices.value| else 0;
      if index >= accessoryCount + deviceCount {
        return;
      }
      if index < accessoryCount {
        var accessory := accessories.value[index];
        trace := trace + [Info(InformationTitle, accessory.text)];
      } else {
        var device := devices.value[index - accessoryCount];
        var interfaces := CollectInterfaces(device);
        SelectInterface(device, interfaces);
      }
    }

    /** Shows the interface picker for `device`. */
    method SelectInterface(device: Device, list: seq<Iface>)
      requires Valid()
      modifies this`trace
      ensures Valid()
      ensures trace == old(trace) + [ShowList(device.header, InterfaceLabels(list))]
    {
      var items := InterfaceItems(list);
      trace := trace + [ShowList(device.header, items)];
    }

    /**
     * A click at `index` on the interface picker: past the list nothing
     * happens, otherwise the endpoint picker opens over that interface's
     * endpoints in index order.
     */
    method OnInterfaceClick(device: Device, list: seq<Iface>, index: nat)
      requires Valid()
      modifies this`trace
      ensures Valid()
      ensures index >= |list| ==> trace == old(trace)
      ensures index < |list| ==>
        trace == old(trace) + [ShowList(EndpointTitle(list[index]), EndpointLabels(list[index].endpoints))]
    {
      if index >= |list| {
        return;
      }
      var usbInterface := list[index];
      var endpoints := CollectEndpoints(usbInterface);
      SelectEndpoint(EndpointTitlePrefix + JavaText(usbInterface.name), endpoints, device, usbInterface);
    }

    /** Shows the endpoint picker. */
    method SelectEndpoint(title: string, list: seq<Endpoint>, device: Device, usbInterface: Iface)
      requires Valid()
      modifies this`trace
      ensures Valid()
      ensures trace == old(trace) + [ShowList(title, EndpointLabels(list))]
    {
      var items := EndpointItems(list);
      trace := trace + [ShowList(title, items)];
    }

    /**
     * A click at `index` on the endpoint picker: past the list nothing
     * happens; otherwise the chosen endpoint, its interface and device are
     * recorded, and then one permission request for that device is issued.
     */
    method OnEndpointClick(list: seq<Endpoint>, device: Device, usbInterface: Iface, index: nat)
      requires Valid()
      modifies this
      ensures Valid()
      ensures index >= |list| ==>
        trace == old(trace) && selectedDevice == old(selectedDevice) &&
        selectedInterface == old(selectedInterface) && selectedEndpoint == old(selectedEndpoint)
      ensures index < |list| ==>
        Selected() && Target() == Transfer.Target(device, usbInterface, list[index]) &&
        trace == old(trace) + [RequestPermission(device)]
    {
      if index >= |list| {
        return;
      }
      selectedEndpoint := Some(list[index]);
      selectedInterface := Some(usbInterface);
      selectedDevice := Some(device);
      trace := trace + [RequestPermission(device)];
    }

    /**
     * The permission receiver. It is registered only after an endpoint was
     * chosen, so the selection is complete whenever it runs. A grant with a
     * device runs `Communicate` once; a grant without one does nothing; a
     * denial reports it and does nothing else. No selected field changes.
     */
    method OnReceive(action: string, granted: bool, device: Option<Device>, answers: Answers)
      returns (outcome: Option<Outcome>)
      requires Selected()
      modifies this`trace
      ensures Valid() && Selected()
      ensures trace == old(trace) + ReceiveEvents(Broadcast(action, granted, device), Target(), answers)
      ensures outcome == ReceiveOutcome(Broadcast(action, granted, device), answers)
    {
      outcome := None;
      if action == ActionUsbPermission {
        if granted {
          if device.Some? {
            var o := Communicate(device.value, answers);
            outcome := Some(o);
          }
        } else {
          trace := trace + [Info(ErrorTitle, DeniedPrefix + DeviceText(device))];
        }
      }
    }

    /**
     * Opens the selected device (the argument only names it in the first
     * message), claims the selected interface plainly and then, if that
     * fails, once by force; stops if both fail, otherwise sends the probe to
     * the selected endpoint, reports the result and closes.
     */
    method Communicate(device: Device, answers: Answers) returns (outcome: Outcome)
      requires Selected()
      modifies this`trace
      ensures Valid() && Selected()
      ensures trace == old(trace) + CommunicateEvents(device, Target(), answers)
      ensures outcome == CommunicateOutcome(answers)
    {
      var t := Target();
      // the calls of this attempt, recorded in order and appended to the trace on each exit
      var calls := [Info(CommunicateTitle, CommunicateMessage(device, t)), OpenDevice(t.device)];
      if !answers.deviceOpens {
        trace := trace + calls;
        return NoConnection;
      }
      calls := calls + [ClaimInterface(t.iface, false)];
      if !answers.claimed {
        calls := calls + [Info(InformationTitle, RetryingMessage), ClaimInterface(t.iface, true)];
        if !answers.forceClaimed {
          calls := calls + [Info(ClaimFailedTitle, ClaimFailedMessage)];
          assert calls == Opening(device, t) + Claiming(t, answers) + Ending(answers, t);
          trace := trace + calls;
          return ClaimFailed;
        }
      }
      var bytes := ProbeBuffer;
      var result := answers.transferred;
      calls := calls + [BulkTransfer(t.endpoint, bytes, |bytes|, TransferTimeout), Info(ResultTitle, FromInt(result)), Close];
      assert calls == Opening(device, t) + Claiming(t, answers) + Ending(answers, t);
      trace := trace + calls;
      return Transferred(result);
    }
  }
}
