/**
 * The Android USB objects the activity handles, as plain values, and the
 * events the activity causes on the platform and the screen.
 */
module Usb {
  import opened Wrappers

  /** A Java `int`. */
  type int32 = x: int | -0x8000_0000 <= x < 0x8000_0000

  /** A Java `byte`. */
  type int8 = x: int | -0x80 <= x < 0x80

  /** A USB accessory: `getDescription()` and the opaque `toString()` text. */
  datatype Accessory = Accessory(description: string, text: string)

  /** A USB endpoint: `getAddress()`. */
  datatype Endpoint = Endpoint(address: int32)

  /**
   * A USB interface: `getName()` (which may be null), the opaque `toString()`
   * text, and its endpoints in index order `0 .. getEndpointCount() - 1`.
   */
  datatype Iface = Iface(name: Option<string>, text: string, endpoints: seq<Endpoint>)

  /**
   * A USB device: `getDeviceName()`, the opaque `toString()` text, the picker
   * title the platform formats from its name, class, subclass and id, and its
   * interfaces in index order `0 .. getInterfaceCount() - 1`.
   */
  datatype Device = Device(name: string, text: string, header: string, interfaces: seq<Iface>)

  /** The title of a one-argument `info(message)` dialog. */
  const InformationTitle := "Information"

  /** One call the activity makes into the platform or the screen, in order. */
  datatype Event =
    | ShowList(title: string, items: seq<string>)  // a picker dialog
    | Info(title: string, message: string)          // an informational dialog
    | RequestPermission(device: Device)
    | OpenDevice(device: Device)
    | ClaimInterface(iface: Iface, force: bool)
    | BulkTransfer(endpoint: Endpoint, buffer: seq<int8>, length: int, timeout: int)
    | Close
  {
    function Kind(): EventKind {
      match this
      case ShowList(_, _) => ShowKind
      case Info(_, _) => InfoKind
      case RequestPermission(_) => PermissionKind
      case OpenDevice(_) => OpenKind
      case ClaimInterface(_, _) => ClaimKind
      case BulkTransfer(_, _, _, _) => BulkKind
      case Close => CloseKind
    }
  }

  datatype EventKind = ShowKind | InfoKind | PermissionKind | OpenKind | ClaimKind | BulkKind | CloseKind

  /** 1 if `e` is of kind `k`, else 0. */
  function Tally(e: Event, k: EventKind): nat
  {
    if e.Kind() == k then 1 else 0
  }

  /** How many events of `trace` are of kind `k`. */
  function Count(trace: seq<Event>, k: EventKind): nat
  {
    if |trace| == 0 then 0 else Tally(trace[0], k) + Count(trace[1..], k)
  }

  lemma {:induction false} CountConcat(a: seq<Event>, b: seq<Event>, k: EventKind)
    ensures Count(a + b, k) == Count(a, k) + Count(b, k)
  {
    if |a| == 0 {
      assert a + b == b;
    } else {
      assert (a + b)[0] == a[0];
      assert (a + b)[1..] == a[1..] + b;
      CountConcat(a[1..], b, k);
    }
  }

  lemma CountOne(a: Event, k: EventKind)
    ensures Count([a], k) == Tally(a, k)
  {
  }

  lemma CountTwo(a: Event, b: Event, k: EventKind)
    ensures Count([a, b], k) == Tally(a, k) + Tally(b, k)
  {
    assert [a, b][1..] == [b];
    CountOne(b, k);
  }

  lemma CountThree(a: Event, b: Event, c: Event, k: EventKind)
    ensures Count([a, b, c], k) == Tally(a, k) + Tally(b, k) + Tally(c, k)
  {
    assert [a, b, c][1..] == [b, c];
    CountTwo(b, c, k);
  }

  /** How Java's string concatenation renders a reference that may be null. */
  function JavaText(s: Option<string>): string
  {
    match s
    case None => "null"
    case Some(v) => v
  }

  /** How `"..." + device` renders a device that may be null. */
  function DeviceText(d: Option<Device>): string
  {
    match d
    case None => "null"
    case Some(v) => v.text
  }
}
