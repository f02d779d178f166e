/**
 * The three pickers of the selection flow: the labels each one lists, the
 * loops that build them, and how a picked index maps back to an item.
 */
module Pickers {
  import opened Wrappers
  import opened Usb
  import opened Decimal

  const ConnectedUsb := "Connected USB"
  const NothingFound := "<NOTHING FOUND>"
  const NoneFound := "none"
  const EndpointTitlePrefix := "interface: "

  /** A list that may be null, with null read as empty. */
  function Present<T>(list: Option<seq<T>>): seq<T>
  {
    if list.Some? then list.value else []
  }

  /**
   * The device picker's labels: every accessory description, then every
   * device name, or the single sentinel when there are neither.
   */
  function DeviceLabels(accessories: Option<seq<Accessory>>, devices: Option<seq<Device>>): seq<string>
  {
    var a, d := Present(accessories), Present(devices);
    if |a| + |d| == 0 then [NothingFound] else Descriptions(a) + Names(d)
  }

  /** The accessory descriptions, in order. */
  function Descriptions(list: seq<Accessory>): (r: seq<string>)
    ensures |r| == |list|
  {
    if |list| == 0 then [] else Descriptions(list[..|list| - 1]) + [list[|list| - 1].description]
  }

  /** The device names, in order. */
  function Names(list: seq<Device>): (r: seq<string>)
    ensures |r| == |list|
  {
    if |list| == 0 then [] else Names(list[..|list| - 1]) + [list[|list| - 1].name]
  }

  /** An interface is listed by its name, or by its text when it has none. */
  function InterfaceLabel(iface: Iface): string
  {
    match iface.name
    case Some(n) => n
    case None => iface.text
  }

  function InterfaceLabels(list: seq<Iface>): seq<string>
  {
    if |list| == 0 then [NoneFound] else seq(|list|, i requires 0 <= i < |list| => InterfaceLabel(list[i]))
  }

  function EndpointLabels(list: seq<Endpoint>): seq<string>
  {
    if |list| == 0 then [NoneFound] else seq(|list|, i requires 0 <= i < |list| => FromInt(list[i].address))
  }

  /** The endpoint picker's title for an interface (a null name reads "null"). */
  function EndpointTitle(iface: Iface): string
  {
    EndpointTitlePrefix + JavaText(iface.name)
  }

  /** What a click on the device picker leads to. */
  datatype DeviceChoice = Dismissed | ShowAccessory(accessory: Accessory) | ShowDevice(device: Device)

  function PickDevice(accessories: Option<seq<Accessory>>, devices: Option<seq<Device>>, index: nat): DeviceChoice
  {
    var a, d := Present(accessories), Present(devices);
    if index >= |a| + |d| then Dismissed
    else if index < |a| then ShowAccessory(a[index])
    else ShowDevice(d[index - |a|])
  }

  // ----- properties of the labels and of the dispatch -----

  /**
   * The device labels are the accessory descriptions in order, then the
   * device names in order; with neither they are exactly the sentinel.
   */
  lemma DeviceLabelsShape(accessories: Option<seq<Accessory>>, devices: Option<seq<Device>>)
    ensures var a, d, r := Present(accessories), Present(devices), DeviceLabels(accessories, devices);
      (|a| + |d| == 0 ==> r == [NothingFound]) &&
      (|a| + |d| > 0 ==>
        |r| == |a| + |d| &&
        (forall i :: 0 <= i < |a| ==> r[i] == a[i].description) &&
        (forall j :: 0 <= j < |d| ==> r[|a| + j] == d[j].name))
  {
    var a, d := Present(accessories), Present(devices);
    forall i | 0 <= i < |a| ensures Descriptions(a)[i] == a[i].description {
      DescriptionAt(a, i);
    }
    forall j | 0 <= j < |d| ensures Names(d)[j] == d[j].name {
      NameAt(d, j);
    }
  }

  lemma {:induction false} DescriptionAt(list: seq<Accessory>, i: nat)
    requires i < |list|
    ensures Descriptions(list)[i] == list[i].description
  {
    if i < |list| - 1 {
      DescriptionAt(list[..|list| - 1], i);
    }
  }

  lemma {:induction false} NameAt(list: seq<Device>, j: nat)
    requires j < |list|
    ensures Names(list)[j] == list[j].name
  {
    if j < |list| - 1 {
      NameAt(list[..|list| - 1], j);
    }
  }

  /**
   * A click on a listed label: the sentinel and any index past the real
   * items are dismissed; an accessory's label picks that accessory; a
   * device's label picks that device.
   */
  lemma DeviceChoiceMatchesLabel(accessories: Option<seq<Accessory>>, devices: Option<seq<Device>>, index: nat)
    requires index < |DeviceLabels(accessories, devices)|
    ensures var a, d, shown := Present(accessories), Present(devices), DeviceLabels(accessories, devices)[index];
      match PickDevice(accessories, devices, index)
      case Dismissed => |a| + |d| == 0 && shown == NothingFound
      case ShowAccessory(x) => index < |a| && x == a[index] && shown == x.description
      case ShowDevice(x) => |a| <= index < |a| + |d| && x == d[index - |a|] && shown == x.name
  {
    DeviceLabelsShape(accessories, devices);
  }

  /** Interface labels: the name when there is one, else the text; the sentinel for none. */
  lemma InterfaceLabelsShape(list: seq<Iface>)
    ensures var r := InterfaceLabels(list);
      (|list| == 0 ==> r == [NoneFound]) &&
      (|list| > 0 ==>
        |r| == |list| &&
        forall i :: 0 <= i < |list| ==>
          r[i] == (if list[i].name.Some? then list[i].name.value else list[i].text))
  {
  }

  /** Endpoint labels: the decimal address of each endpoint, or the sentinel for none. */
  lemma EndpointLabelsShape(list: seq<Endpoint>)
    ensures var r := EndpointLabels(list);
      (|list| == 0 ==> r == [NoneFound]) &&
      (|list| > 0 ==>
        |r| == |list| &&
        forall i :: 0 <= i < |list| ==> ToInt(r[i]) == Some(list[i].address as int))
  {
    if |list| > 0 {
      forall i | 0 <= i < |list|
        ensures ToInt(EndpointLabels(list)[i]) == Some(list[i].address as int)
      {
        RoundTrip(list[i].address);
      }
    }
  }

  // ----- the loops of the source -----

  /**
   * Builds the device picker's items: the accessory descriptions, then the
   * device names, the sentinel if both are missing, copied into an array.
   */
  method DeviceItems(accessories: Option<seq<Accessory>>, devices: Option<seq<Device>>) returns (items: seq<string>)
    ensures items == DeviceLabels(accessories, devices)
  {
    var sequence: seq<string> := [];
    var accessoryCount := if accessories.Some? then |accessories.value| else 0;
    var deviceCount := if devices.Some? then |devices.value| else 0;
    ghost var a, d := Present(accessories), Present(devices);
    if accessoryCount > 0 {
      var descriptions := CollectDescriptions(accessories.value);
      sequence := sequence + descriptions;
    }
    assert sequence == Descriptions(a);
    if deviceCount > 0 {
      var names := CollectNames(devices.value);
      sequence := sequence + names;
    }
    assert sequence == Descriptions(a) + Names(d);
    if |sequence| == 0 {
      sequence := sequence + [NothingFound];
    }
    assert sequence == DeviceLabels(accessories, devices);
    items := CopyItems(sequence);
  }

  /** The loop over the accessories, adding each description. */
  method CollectDescriptions(accessories: seq<Accessory>) returns (sequence: seq<string>)
    ensures sequence == Descriptions(accessories)
  {
    sequence := [];
    for k := 0 to |accessories|
      invariant sequence == Descriptions(accessories[..k])
    {
      assert accessories[..k + 1][..k] == accessories[..k];
      sequence := sequence + [accessories[k].description];
    }
    assert accessories[..|accessories|] == accessories;
  }

  /** The loop over the devices, adding each name. */
  method CollectNames(devices: seq<Device>) returns (sequence: seq<string>)
    ensures sequence == Names(devices)
  {
    sequence := [];
    for k := 0 to |devices|
      invariant sequence == Names(devices[..k])
    {
      assert devices[..k + 1][..k] == devices[..k];
      sequence := sequence + [devices[k].name];
    }
    assert devices[..|devices|] == devices;
  }

  /** Copies the collected labels, one by one, into the array the dialog lists. */
  method CopyItems(sequence: seq<string>) returns (items: seq<string>)
    ensures items == sequence
  {
    var arr := new string[|sequence|];
    for i := 0 to arr.Length
      invariant forall k :: 0 <= k < i ==> arr[k] == sequence[k]
    {
      arr[i] := sequence[i];
    }
    items := arr[..];
  }

  /** Builds the interface picker's items, one array slot per interface. */
  method InterfaceItems(list: seq<Iface>) returns (items: seq<string>)
    ensures items == InterfaceLabels(list)
  {
    var sequence := new string[1];
    sequence[0] := NoneFound;
    if |list| > 0 {
      sequence := new string[|list|];
      var i := 0;
      while i < |list|
        invariant 0 <= i <= |list| == sequence.Length
        invariant forall k :: 0 <= k < i ==> sequence[k] == InterfaceLabel(list[k])
      {
        if list[i].name.None? {
          sequence[i] := list[i].text;
        } else {
          sequence[i] := list[i].name.value;
        }
        i := i + 1;
      }
    }
    items := sequence[..];
  }

  /** Builds the endpoint picker's items, one decimal address per endpoint. */
  method EndpointItems(list: seq<Endpoint>) returns (items: seq<string>)
    ensures items == EndpointLabels(list)
  {
    var sequence := new string[1];
    sequence[0] := NoneFound;
    if |list| > 0 {
      sequence := new string[|list|];
      var i := 0;
      while i < |list|
        invariant 0 <= i <= |list| == sequence.Length
        invariant forall k :: 0 <= k < i ==> sequence[k] == FromInt(list[k].address)
      {
        sequence[i] := FromInt(list[i].address);
        i := i + 1;
      }
    }
    items := sequence[..];
  }

  /** Copies a device's interfaces, by index, into a list. */
  method CollectInterfaces(device: Device) returns (list: seq<Iface>)
    ensures list == device.interfaces
  {
    list := [];
    for i := 0 to |device.interfaces|
      invariant list == device.interfaces[..i]
    {
      list := list + [device.interfaces[i]];
    }
  }

  /** Copies an interface's endpoints, by index, into a list. */
  method CollectEndpoints(iface: Iface) returns (list: seq<Endpoint>)
    ensures list == iface.endpoints
  {
    list := [];
    for i := 0 to |iface.endpoints|
      invariant list == iface.endpoints[..i]
    {
      list := list + [iface.endpoints[i]];
    }
  }
}
