/**
 Selection of the USB serial adapter to talk to (`UsbDeviceDetector`).

 The device list is the vendor IDs of the attached devices, in the order in
 which the device map's values are iterated; a result `Some(i)` stands for the
 `i`-th device of that list and `None` for Kotlin's `null`.
 */
module UsbDetection {
  import opened Optional

  /** Vendor IDs of the USB-to-serial chips the tool accepts. */
  const SupportedVendors: set<int> := {
    0x0403, // FTDI
    0x10C4, // Silicon Labs CP210x
    0x067B, // Prolific
    0x1A86, // QinHeng CH340/CH341
    0x2341, // Arduino
    0x16C0, // Teensyduino
    0x03EB, // Atmel LUFA
    0x1EAF, // Leaflabs
    0x0D28, // ARM mbed
    0x0483, // STMicroelectronics
    0x2E8A  // Raspberry Pi Pico
  }

  predicate Supported(vendorId: int) {
    vendorId in SupportedVendors
  }

  /** No device of the list has a supported vendor ID. */
  ghost predicate NoneSupported(vendorIds: seq<int>) {
    forall j :: 0 <= j < |vendorIds| ==> !Supported(vendorIds[j])
  }

  /**
   The `filter` step: the positions of the supported devices, in list order.
   */
  function SupportedPositions(vendorIds: seq<int>): (ps: seq<nat>)
    ensures forall k :: 0 <= k < |ps| ==> ps[k] < |vendorIds| && Supported(vendorIds[ps[k]])
    ensures forall k, l :: 0 <= k < l < |ps| ==> ps[k] < ps[l]
    ensures forall j :: 0 <= j < |vendorIds| && Supported(vendorIds[j]) ==> j in ps
  {
    if vendorIds == [] then []
    else
      var n := |vendorIds| - 1;
      var front := SupportedPositions(vendorIds[..n]);
      assert forall j :: 0 <= j < n ==> vendorIds[..n][j] == vendorIds[j];
      if Supported(vendorIds[n]) then front + [n] else front
  }

  /**
   `findSupportedDevice`: null for an empty list, otherwise the first element
   of the filtered list, or null when the filter kept nothing.
   */
  function FindSupportedDevice(vendorIds: seq<int>): (r: Option<nat>)
    ensures r == None <==> NoneSupported(vendorIds)
    ensures r.Some? ==> r.value < |vendorIds| && Supported(vendorIds[r.value])
    ensures r.Some? ==> forall j :: 0 <= j < r.value ==> !Supported(vendorIds[j])
  {
    if |vendorIds| == 0 then None
    else
      var supported := SupportedPositions(vendorIds);
      if supported == [] then None else Some(supported[0])
  }

  /** The empty device map yields null. */
  lemma NoDevicesConnected()
    ensures FindSupportedDevice([]) == None
  {
  }

  /**
   The selection is determined by its characterisation: a supported device
   with no supported device before it is the one selected.
   */
  lemma SelectsFirstSupported(vendorIds: seq<int>, i: nat)
    requires i < |vendorIds| && Supported(vendorIds[i])
    requires forall j :: 0 <= j < i ==> !Supported(vendorIds[j])
    ensures FindSupportedDevice(vendorIds) == Some(i)
  {
    assert !NoneSupported(vendorIds);
  }

  /** The list with `vendorId` inserted before position `at`. */
  function Insert(vendorIds: seq<int>, at: nat, vendorId: int): (longer: seq<int>)
    requires at <= |vendorIds|
    ensures |longer| == |vendorIds| + 1 && longer[at] == vendorId
    ensures forall j :: 0 <= j < at ==> longer[j] == vendorIds[j]
    ensures forall j :: at < j < |longer| ==> longer[j] == vendorIds[j - 1]
  {
    vendorIds[..at] + [vendorId] + vendorIds[at..]
  }

  /**
   Inserting an unsupported device anywhere in the list selects the same
   device as before, at its shifted position, and never selects the new one.
   */
  lemma InsertUnsupported(vendorIds: seq<int>, at: nat, vendorId: int)
    requires at <= |vendorIds|
    requires !Supported(vendorId)
    ensures FindSupportedDevice(vendorIds) == None ==>
      FindSupportedDevice(Insert(vendorIds, at, vendorId)) == None
    ensures FindSupportedDevice(vendorIds).Some? ==>
      var i := FindSupportedDevice(vendorIds).value;
      var i' := if i < at then i else i + 1;
      FindSupportedDevice(Insert(vendorIds, at, vendorId)) == Some(i') &&
      Insert(vendorIds, at, vendorId)[i'] == vendorIds[i]
  {
    var longer := Insert(vendorIds, at, vendorId);
    var r := FindSupportedDevice(vendorIds);
    if r == None {
      InsertNoneSupported(vendorIds, at, vendorId);
    } else {
      var i := r.value;
      var i' := if i < at then i else i + 1;
      forall j | 0 <= j < i' ensures !Supported(longer[j]) {
        if j > at { assert longer[j] == vendorIds[j - 1]; }
      }
      SelectsFirstSupported(longer, i');
    }
  }

  lemma InsertNoneSupported(vendorIds: seq<int>, at: nat, vendorId: int)
    requires at <= |vendorIds|
    requires !Supported(vendorId) && NoneSupported(vendorIds)
    ensures NoneSupported(Insert(vendorIds, at, vendorId))
  {
    var longer := Insert(vendorIds, at, vendorId);
    forall j | 0 <= j < |longer| ensures !Supported(longer[j]) {
      if j > at { assert longer[j] == vendorIds[j - 1]; }
    }
  }

  /** Appending unsupported devices never changes the selection. */
  lemma AppendUnsupported(vendorIds: seq<int>, extra: seq<int>)
    requires NoneSupported(extra)
    ensures FindSupportedDevice(vendorIds + extra) == FindSupportedDevice(vendorIds)
  {
    var all := vendorIds + extra;
    match FindSupportedDevice(vendorIds)
    case None =>
      assert NoneSupported(all) by {
        forall j | 0 <= j < |all| ensures !Supported(all[j]) {
          if j >= |vendorIds| { assert all[j] == extra[j - |vendorIds|]; }
        }
      }
    case Some(i) =>
      assert all[i] == vendorIds[i];
      SelectsFirstSupported(all, i);
  }
}
