/**
 * The Windows Image Acquisition objects the scanning window talks to, as far
 * as it depends on them: devices and items expose a list of numbered integer
 * properties, the device manager lists the devices, the transfer dialog hands
 * over scanned images, and temporary image files live on disk.
 */
module Wia {
  import opened Wrappers
  import opened Exceptions

  /**
   * A WIA property: its number, its integer value, the exception that
   * `set_Value` raises for it if the driver refuses writes to it, and the
   * exception reading it raises, if any (a COM error from `get_Value`, or the
   * `InvalidCastException` of the `(int)` cast on a value that is no integer).
   */
  datatype Property = Property(id: int, value: int, setFault: Option<Exception>, getFault: Option<Exception>)

  /** What `DeviceInfo.Connect` does: refuse, or hand back the device's and its first item's properties. */
  datatype Connection =
    | Refused(error: Exception)
    | Connected(deviceProperties: seq<Property>, itemProperties: seq<Property>)

  /** An entry of `DeviceManager.DeviceInfos`. */
  datatype DeviceInfo = DeviceInfo(deviceId: string, connection: Connection)

  /**
   * The outcome of one `CommonDialog.ShowTransfer` call together with what
   * happens to the image afterwards: the transfer fails, or an image arrives
   * and is written to `tempPath` (`saveFault` if `ImageFile.SaveFile` fails)
   * and loaded back (`loadFault` if `XImage.FromFile` fails).
   */
  datatype Transfer =
    | TransferFailed(error: Exception)
    | Transferred(tempPath: string, saveFault: Option<Exception>, loadFault: Option<Exception>)

  /** The index of the first property numbered `id`, or -1 when there is none. */
  function FirstIndexOf(properties: seq<Property>, id: int): (k: int)
    ensures -1 <= k < |properties|
    ensures k == -1 <==> forall j :: 0 <= j < |properties| ==> properties[j].id != id
    ensures k >= 0 ==> properties[k].id == id && forall j :: 0 <= j < k ==> properties[j].id != id
  {
    if |properties| == 0 then -1
    else if properties[0].id == id then 0
    else
      var k := FirstIndexOf(properties[1..], id);
      if k == -1 then -1 else k + 1
  }

  /**
   * Setting property `id` to `value`: only the first property with that
   * number is written; writing it may fail, and nothing happens when no
   * property has that number. Returns the new list and the exception raised.
   */
  function WriteProperty(properties: seq<Property>, id: int, value: int): (seq<Property>, Option<Exception>) {
    var k := FirstIndexOf(properties, id);
    if k == -1 then (properties, None)
    else if properties[k].setFault.Some? then (properties, properties[k].setFault)
    else (properties[k := properties[k].(value := value)], None)
  }

  /** Reading property `id`: the value of the first property with that number, or -1 when there is none. */
  function ReadProperty(properties: seq<Property>, id: int): int {
    var k := FirstIndexOf(properties, id);
    if k == -1 then -1 else properties[k].value
  }

  /** What reading property `id` throws: the first property with that number may refuse to be read. */
  function ReadFault(properties: seq<Property>, id: int): Option<Exception> {
    var k := FirstIndexOf(properties, id);
    if k == -1 then None else properties[k].getFault
  }

  /** A write changes no property's read fault, so a write never makes a read fail or succeed. */
  lemma ReadFaultAfterWrite(properties: seq<Property>, id: int, value: int, other: int)
    ensures ReadFault(WriteProperty(properties, id, value).0, other) == ReadFault(properties, other)
  {
    var written := WriteProperty(properties, id, value).0;
    assert |written| == |properties| && forall j :: 0 <= j < |written| ==> written[j].id == properties[j].id;
    FirstIndexOfSameIds(properties, written, other);
  }

  /** A write that goes through is seen by the next read of the same property. */
  lemma ReadAfterWrite(properties: seq<Property>, id: int, value: int)
    requires WriteProperty(properties, id, value).1.None?
    requires FirstIndexOf(properties, id) != -1
    ensures ReadProperty(WriteProperty(properties, id, value).0, id) == value
  {
    var k := FirstIndexOf(properties, id);
    var written := WriteProperty(properties, id, value).0;
    assert written[k].id == id && forall j :: 0 <= j < k ==> written[j] == properties[j];
  }

  /** A write touches no other property: reads of other numbers, and the numbering, are unchanged. */
  lemma WriteKeepsOtherProperties(properties: seq<Property>, id: int, value: int, other: int)
    requires other != id
    ensures var written := WriteProperty(properties, id, value).0;
      && |written| == |properties|
      && (forall j :: 0 <= j < |written| ==> written[j].id == properties[j].id)
      && ReadProperty(written, other) == ReadProperty(properties, other)
  {
    var written := WriteProperty(properties, id, value).0;
    assert forall j :: 0 <= j < |written| ==> written[j].id == properties[j].id;
    FirstIndexOfSameIds(properties, written, other);
    var k := FirstIndexOf(properties, id);
    var m := FirstIndexOf(properties, other);
    assert m != -1 ==> m != k || k == -1;
  }

  /** A write to one property leaves what another property reads as unchanged. */
  lemma ReadAfterOtherWrite(properties: seq<Property>, id: int, value: int, other: int)
    requires other != id
    ensures ReadProperty(WriteProperty(properties, id, value).0, other) == ReadProperty(properties, other)
  {
    WriteKeepsOtherProperties(properties, id, value, other);
  }

  /** The search depends on the property numbers only. */
  lemma {:induction false} FirstIndexOfSameIds(a: seq<Property>, b: seq<Property>, id: int)
    requires |a| == |b| && forall j :: 0 <= j < |a| ==> a[j].id == b[j].id
    ensures FirstIndexOf(a, id) == FirstIndexOf(b, id)
  {
    if |a| > 0 && a[0].id != id {
      FirstIndexOfSameIds(a[1..], b[1..], id);
    }
  }

  /** A failed or missing write leaves the list as it was. */
  lemma FailedWriteChangesNothing(properties: seq<Property>, id: int, value: int)
    requires WriteProperty(properties, id, value).1.Some? || FirstIndexOf(properties, id) == -1
    ensures WriteProperty(properties, id, value).0 == properties
  {
  }

  /** A WIA `Device` or `Item`: an object whose `Properties` collection the window reads and writes. */
  class PropertyBag {
    var properties: seq<Property>

    constructor (properties: seq<Property>)
      ensures this.properties == properties
    {
      this.properties := properties;
    }

    /** The `foreach`/`break` search that sets the first property numbered `id`. */
    method SetIntProperty(id: int, value: int) returns (raised: Option<Exception>)
      modifies this
      ensures (properties, raised) == WriteProperty(old(properties), id, value)
    {
      raised := None;
      var i := 0;
      while i < |properties|
        invariant 0 <= i <= |properties|
        invariant properties == old(properties)
        invariant forall j :: 0 <= j < i ==> properties[j].id != id
      {
        if properties[i].id == id {
          var p := properties[i];
          if p.setFault.Some? {
            raised := p.setFault;
          } else {
            properties := properties[i := p.(value := value)];
          }
          break;
        }
        i := i + 1;
      }
    }

    /**
     * The `foreach`/`break` search that reads the first property numbered
     * `id`, -1 when absent; reading that property may throw instead.
     */
    method GetIntProperty(id: int) returns (ret: int, raised: Option<Exception>)
      ensures raised == ReadFault(properties, id)
      ensures raised.None? ==> ret == ReadProperty(properties, id)
      ensures raised.None? && ret != -1 ==>
        exists j :: 0 <= j < |properties| && properties[j].id == id && properties[j].value == ret
    {
      ret, raised := -1, None;
      var i := 0;
      while i < |properties|
        invariant 0 <= i <= |properties|
        invariant forall j :: 0 <= j < i ==> properties[j].id != id
      {
        if properties[i].id == id {
          var p := properties[i];
          if p.getFault.Some? {
            raised := p.getFault;
          } else {
            ret := p.value;
          }
          break;
        }
        i := i + 1;
      }
    }
  }

  /**
   * The device list the `n`th `new DeviceManager()` enumerates: entry `n` of
   * `devices`, the last entry for every later manager, and no devices at all
   * when `devices` is empty.
   */
  function DevicesAt(devices: seq<seq<DeviceInfo>>, n: nat): (infos: seq<DeviceInfo>)
    ensures n < |devices| ==> infos == devices[n]
    ensures |devices| > 0 && n >= |devices| ==> infos == devices[|devices| - 1]
  {
    if |devices| == 0 then []
    else if n < |devices| then devices[n]
    else devices[|devices| - 1]
  }

  /**
   * Everything outside the window that a scan touches: the device lists
   * successive device managers enumerate (`devices`, with the number of
   * managers created so far), the outcomes of successive transfers
   * (`script`) with the position of the next one, and the files on disk
   * together with those whose deletion fails. Each enumeration hands out
   * its own devices, so a scanner can vanish, refuse to connect or change
   * its properties between two calls.
   */
  class Environment {
    const devices: seq<seq<DeviceInfo>>
    var managers: nat
    const script: seq<Transfer>
    var next: nat
    var files: set<string>
    var locked: set<string>

    constructor (devices: seq<seq<DeviceInfo>>, script: seq<Transfer>, files: set<string>, locked: set<string>)
      ensures this.devices == devices && managers == 0 && this.script == script && next == 0
      ensures this.files == files && this.locked == locked
    {
      this.devices := devices;
      managers := 0;
      this.script := script;
      next := 0;
      this.files := files;
      this.locked := locked;
    }

    /** `new DeviceManager().DeviceInfos`: the next manager's list of devices. */
    method DeviceInfos() returns (infos: seq<DeviceInfo>)
      modifies this`managers
      ensures infos == DevicesAt(devices, old(managers)) && managers == old(managers) + 1
    {
      infos := DevicesAt(devices, managers);
      managers := managers + 1;
    }
  }
}
