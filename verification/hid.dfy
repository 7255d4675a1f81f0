/** Device selection (drunkdeer/hid.go): the allow-list of DrunkDeer HID
    interfaces and the filter over the enumerated devices. The enumeration
    itself is a library call; here it is the list of devices it reports, in
    its order. */
module Hid {
  import opened Bytes

  /** The fields of an enumerated HID interface that the selection reads. */
  datatype DeviceInfo = DeviceInfo(path: string, vendorId: uint16, productId: uint16, usagePage: uint16, usage: uint16)

  /** One allow-list entry. */
  datatype HidDeviceData = HidDeviceData(vendorId: uint16, productId: uint16, usagePage: uint16, usage: uint16)

  /** The vendor-defined usage page of the configuration interface. */
  const VendorUsagePage: uint16 := 0xFF00

  /** `GetDDProducts`. */
  const DDProducts: seq<HidDeviceData> :=
    [HidDeviceData(0x352D, 0x2383, VendorUsagePage, 0x00),
     HidDeviceData(0x352D, 0x2382, VendorUsagePage, 0x00),
     HidDeviceData(0x352D, 0x2384, VendorUsagePage, 0x00),
     HidDeviceData(0x352D, 0x2386, VendorUsagePage, 0x00),
     HidDeviceData(0x05AC, 0x024F, VendorUsagePage, 0x00)]

  /** Five entries, all on the vendor usage page with usage 0: four DrunkDeer
      product ids and one under vendor id 0x05AC. */
  lemma DDProductsShape()
    ensures |DDProducts| == 5
    ensures forall k | 0 <= k < |DDProducts| :: DDProducts[k].usagePage == 0xFF00 && DDProducts[k].usage == 0
    ensures forall k | 0 <= k < 4 :: DDProducts[k].vendorId == 0x352D
    ensures DDProducts[4].vendorId == 0x05AC && DDProducts[4].productId == 0x024F
    ensures forall j, k | 0 <= j < k < |DDProducts| :: DDProducts[j] != DDProducts[k]
  {
  }

  /** The four-field comparison of the enumeration callback. */
  predicate Matches(info: DeviceInfo, product: HidDeviceData) {
    && info.vendorId == product.vendorId && info.productId == product.productId
    && info.usagePage == product.usagePage && info.usage == product.usage
  }

  /** A device is accepted when it matches an allow-list entry. */
  ghost predicate Accepted(info: DeviceInfo) {
    exists k | 0 <= k < |DDProducts| :: Matches(info, DDProducts[k])
  }

  /** The inner loop of the callback over `products[from..]`: it stops at the
      first entry that matches. */
  function AnyMatchFrom(info: DeviceInfo, products: seq<HidDeviceData>, from: nat): (r: bool)
    requires from <= |products|
    ensures r <==> exists k | from <= k < |products| :: Matches(info, products[k])
    decreases |products| - from
  {
    if from == |products| then false
    else if Matches(info, products[from]) then true
    else AnyMatchFrom(info, products, from + 1)
  }

  /** The callback's decision for one device. */
  function IsDrunkDeer(info: DeviceInfo): (r: bool)
    ensures r <==> Accepted(info)
  {
    AnyMatchFrom(info, DDProducts, 0)
  }

  /** The accepted devices of an enumeration, in enumeration order. */
  ghost function Selected(devices: seq<DeviceInfo>): seq<DeviceInfo>
    decreases |devices|
  {
    if |devices| == 0 then []
    else (if Accepted(devices[0]) then [devices[0]] else []) + Selected(devices[1..])
  }

  /** `FindDrunkDeerDevices`: for each enumerated device in turn, try the
      allow-list entries in order and append the device on the first match,
      then go on to the next device. */
  method FindDrunkDeerDevices(enumerated: seq<DeviceInfo>) returns (found: seq<DeviceInfo>)
    ensures found == Selected(enumerated)
  {
    found := [];
    var n := 0;
    while n < |enumerated|
      invariant 0 <= n <= |enumerated|
      invariant found == Selected(enumerated[..n])
    {
      var info := enumerated[n];
      var k := 0;
      while k < |DDProducts|
        invariant 0 <= k <= |DDProducts|
        invariant forall j | 0 <= j < k :: !Matches(info, DDProducts[j])
      {
        if Matches(info, DDProducts[k]) {
          break;
        }
        k := k + 1;
      }
      SelectedAppend(enumerated[..n], [info]);
      assert enumerated[..n + 1] == enumerated[..n] + [info];
      if k < |DDProducts| {
        found := found + [info];
      }
      n := n + 1;
    }
    assert enumerated[..n] == enumerated;
  }

  /** Selection distributes over concatenation: devices keep their
      enumeration order. */
  lemma {:induction false} SelectedAppend(a: seq<DeviceInfo>, b: seq<DeviceInfo>)
    ensures Selected(a + b) == Selected(a) + Selected(b)
    decreases |a|
  {
    if |a| == 0 {
      assert a + b == b;
    } else {
      assert (a + b)[0] == a[0] && (a + b)[1..] == a[1..] + b;
      SelectedAppend(a[1..], b);
    }
  }

  /** Each device occurs among the selected as often as it was enumerated
      when it is accepted, and not at all otherwise: nothing is appended
      twice and no accepted device is dropped. */
  lemma {:induction false} SelectedCounts(devices: seq<DeviceInfo>, d: DeviceInfo)
    ensures multiset(Selected(devices))[d] == if Accepted(d) then multiset(devices)[d] else 0
    decreases |devices|
  {
    if |devices| > 0 {
      SelectedCounts(devices[1..], d);
      assert devices == [devices[0]] + devices[1..];
    }
  }
}
