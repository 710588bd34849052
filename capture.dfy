/**
 * What one press of "Scan" does, as values: how a single `ScanOne` call
 * negotiates with the scanner and what it yields, how the click's loop
 * strings those calls together, and how errors are turned into messages.
 * Page sizes are in hundredths of an inch.
 */
module Capture {
  import opened Wrappers
  import opened Exceptions
  import opened Text
  import opened Wia

  // ---------------------------------------------------------------------------
  // Error messages

  /** The COM error code WIA reports when the feeder has run out of paper. */
  const PaperEmpty: HResult := 0x8021_0003

  /** The texts for the WIA error codes 0x80210001 to 0x8021000F, in code order. */
  const WiaErrorTexts: seq<string> := [
    "WIA: General error", "WIA: Paper jam", "WIA: Paper empty", "WIA: Paper problem",
    "WIA: Offline", "WIA: Busy", "WIA: Warming up", "WIA: User intervention required",
    "WIA: Item deleted", "WIA: Failed to communicate with device", "WIA: Invalid command",
    "WIA: Incorrect hardware setting", "WIA: Device locked", "WIA: Exception in driver",
    "WIA: Invalid Driver response"
  ]

  /**
   * `WiaErrorOrMessage`: the fixed text of a WIA error code, and the
   * exception's own message for any other code or any other exception.
   */
  function WiaErrorOrMessage(ex: Exception): (error: string)
    ensures ex.ComException? && 0x8021_0001 <= ex.code <= 0x8021_000F ==>
      error == WiaErrorTexts[ex.code - 0x8021_0001]
    ensures !(ex.ComException? && 0x8021_0001 <= ex.code <= 0x8021_000F) ==> error == ex.message
  {
    var error: Option<string> :=
      if !ex.ComException? then None
      else if ex.code == 0x8021_0001 then Some("WIA: General error")
      else if ex.code == 0x8021_0002 then Some("WIA: Paper jam")
      else if ex.code == 0x8021_0003 then Some("WIA: Paper empty")
      else if ex.code == 0x8021_0004 then Some("WIA: Paper problem")
      else if ex.code == 0x8021_0005 then Some("WIA: Offline")
      else if ex.code == 0x8021_0006 then Some("WIA: Busy")
      else if ex.code == 0x8021_0007 then Some("WIA: Warming up")
      else if ex.code == 0x8021_0008 then Some("WIA: User intervention required")
      else if ex.code == 0x8021_0009 then Some("WIA: Item deleted")
      else if ex.code == 0x8021_000A then Some("WIA: Failed to communicate with device")
      else if ex.code == 0x8021_000B then Some("WIA: Invalid command")
      else if ex.code == 0x8021_000C then Some("WIA: Incorrect hardware setting")
      else if ex.code == 0x8021_000D then Some("WIA: Device locked")
      else if ex.code == 0x8021_000E then Some("WIA: Exception in driver")
      else if ex.code == 0x8021_000F then Some("WIA: Invalid Driver response")
      else None;
    error.GetOr(ex.message)
  }

  /** Each WIA code has its own text. */
  lemma WiaErrorTextsDistinct()
    ensures forall i, j :: 0 <= i < j < |WiaErrorTexts| ==> WiaErrorTexts[i] != WiaErrorTexts[j]
  {
  }

  /** So two WIA exceptions with different codes are reported differently. */
  lemma {:induction false} WiaErrorOrMessageTellsCodesApart(a: Exception, b: Exception)
    requires a.ComException? && 0x8021_0001 <= a.code <= 0x8021_000F
    requires b.ComException? && 0x8021_0001 <= b.code <= 0x8021_000F
    requires a.code != b.code
    ensures WiaErrorOrMessage(a) != WiaErrorOrMessage(b)
  {
    WiaErrorTextsDistinct();
    var i, j := a.code - 0x8021_0001, b.code - 0x8021_0001;
    assert WiaErrorTexts[i] != WiaErrorTexts[j];
  }

  // ---------------------------------------------------------------------------
  // One ScanOne call

  /** The resolution the window asks for, in dots per inch. */
  const Dpi: int := 150

  /** `(int)x` for `x == a / b` with `b > 0`: the quotient truncated toward zero. */
  function TruncatedQuotient(a: int, b: int): (q: int)
    requires b > 0
    ensures a >= 0 ==> q * b <= a < (q + 1) * b
    ensures a < 0 ==> (q - 1) * b < a <= q * b
  {
    if a >= 0 then a / b else -((-a) / b)
  }

  /** A page extent in hundredths of an inch, as a count of scanner pixels: `(int)(dpi * inches)`. */
  function Pixels(hundredths: int): int {
    TruncatedQuotient(Dpi * hundredths, 100)
  }

  /** `_lastItem` after `SetItemIntProperty(id, value)`: "Item id=value". */
  function ItemLabel(id: int, value: int): string {
    "Item " + IntToString(id) + "=" + IntToString(value)
  }

  /** `_lastItem` after `SetDeviceIntProperty(id, value)`: "Device id=value". */
  function DeviceLabel(id: int, value: int): string {
    "Device " + IntToString(id) + "=" + IntToString(value)
  }

  /** Document handling requested from the device: 1 for the feeder, 2 for the flatbed. */
  function Handling(adf: bool): int {
    if adf then 1 else 2
  }

  /** How negotiating the scan settings ends. */
  datatype Agreement = Ready | Mismatch | Refusal(error: Exception)

  /**
   * The result of negotiating: how it ended, the last property write
   * attempted (what `_lastItem` then says) and the properties afterwards.
   */
  datatype Negotiation = Negotiation(agreement: Agreement, lastItem: string, device: seq<Property>, item: seq<Property>)

  /**
   * The item half of the negotiation: resolution and extent, any failure
   * raising, then greyscale and bit depth, failures ignored. Returns the
   * item's properties, the exception raised and the last write attempted.
   */
  function ConfigureItem(item: seq<Property>, width: int, height: int): (seq<Property>, Option<Exception>, string) {
    var (i1, f1) := WriteProperty(item, 6147, Dpi);
    if f1.Some? then (i1, f1, ItemLabel(6147, Dpi)) else
    var (i2, f2) := WriteProperty(i1, 6148, Dpi);
    if f2.Some? then (i2, f2, ItemLabel(6148, Dpi)) else
    var (i3, f3) := WriteProperty(i2, 6151, Pixels(width));
    if f3.Some? then (i3, f3, ItemLabel(6151, Pixels(width))) else
    var (i4, f4) := WriteProperty(i3, 6152, Pixels(height));
    if f4.Some? then (i4, f4, ItemLabel(6152, Pixels(height))) else
    var i5 := WriteProperty(i4, 6146, 2).0;
    var i6 := WriteProperty(i5, 4104, 8).0;
    (i6, None, ItemLabel(4104, 8))
  }

  /**
   * Negotiation as `ScanOne` does it: the item first, then the document
   * handling on the device, read back from the handling status property
   * (a read that throws ends the negotiation like a refused write) and
   * compared with the request.
   */
  function Negotiate(device: seq<Property>, item: seq<Property>, adf: bool, width: int, height: int): Negotiation {
    var (configured, fault, lastItem) := ConfigureItem(item, width, height);
    if fault.Some? then Negotiation(Refusal(fault.value), lastItem, device, configured) else
    var (d1, f7) := WriteProperty(device, 3088, Handling(adf));
    var setting := DeviceLabel(3088, Handling(adf));
    if f7.Some? then Negotiation(Refusal(f7.value), setting, d1, configured)
    else if ReadFault(d1, 3087).Some? then Negotiation(Refusal(ReadFault(d1, 3087).value), setting, d1, configured)
    else if ReadProperty(d1, 3087) == Handling(adf) then Negotiation(Ready, setting, d1, configured)
    else Negotiation(Mismatch, setting, d1, configured)
  }

  /** The greyscale and bit-depth writes change no other property. */
  lemma BestEffortKeeps(properties: seq<Property>, id: int)
    requires id != 6146 && id != 4104
    ensures ReadProperty(WriteProperty(WriteProperty(properties, 6146, 2).0, 4104, 8).0, id) == ReadProperty(properties, id)
  {
    ReadAfterOtherWrite(properties, 6146, 2, id);
    ReadAfterOtherWrite(WriteProperty(properties, 6146, 2).0, 4104, 8, id);
  }

  /** An item configured without an exception has the requested resolution, or lacks the property. */
  lemma ConfiguredResolution(item: seq<Property>, width: int, height: int)
    requires ConfigureItem(item, width, height).1.None?
    ensures var configured := ConfigureItem(item, width, height).0;
      ReadProperty(configured, 6147) in {Dpi, -1} && ReadProperty(configured, 6148) in {Dpi, -1}
  {
    var i1 := WriteProperty(item, 6147, Dpi).0;
    var i2 := WriteProperty(i1, 6148, Dpi).0;
    var i3 := WriteProperty(i2, 6151, Pixels(width)).0;
    var i4 := WriteProperty(i3, 6152, Pixels(height)).0;
    WrittenOrAbsent(item, 6147, Dpi);
    ReadAfterOtherWrite(i1, 6148, Dpi, 6147);
    WrittenOrAbsent(i1, 6148, Dpi);
    ReadAfterOtherWrite(i2, 6151, Pixels(width), 6147);
    ReadAfterOtherWrite(i2, 6151, Pixels(width), 6148);
    ReadAfterOtherWrite(i3, 6152, Pixels(height), 6147);
    ReadAfterOtherWrite(i3, 6152, Pixels(height), 6148);
    BestEffortKeeps(i4, 6147);
    BestEffortKeeps(i4, 6148);
  }

  /** An item configured without an exception has the requested scan extent, or lacks the property. */
  lemma ConfiguredExtent(item: seq<Property>, width: int, height: int)
    requires ConfigureItem(item, width, height).1.None?
    ensures var configured := ConfigureItem(item, width, height).0;
      ReadProperty(configured, 6151) in {Pixels(width), -1} && ReadProperty(configured, 6152) in {Pixels(height), -1}
  {
    var i1 := WriteProperty(item, 6147, Dpi).0;
    var i2 := WriteProperty(i1, 6148, Dpi).0;
    var i3 := WriteProperty(i2, 6151, Pixels(width)).0;
    var i4 := WriteProperty(i3, 6152, Pixels(height)).0;
    WrittenOrAbsent(i2, 6151, Pixels(width));
    ReadAfterOtherWrite(i3, 6152, Pixels(height), 6151);
    WrittenOrAbsent(i3, 6152, Pixels(height));
    BestEffortKeeps(i4, 6151);
    BestEffortKeeps(i4, 6152);
  }

  /**
   * A negotiation that ends ready has every item property it writes and the
   * device's handling selection either set to the requested value or absent
   * (read as -1), and the device reports the requested handling.
   */
  lemma NegotiatedSettings(device: seq<Property>, item: seq<Property>, adf: bool, width: int, height: int)
    requires Negotiate(device, item, adf, width, height).agreement.Ready?
    ensures var n := Negotiate(device, item, adf, width, height);
      && ReadProperty(n.item, 6147) in {Dpi, -1}
      && ReadProperty(n.item, 6148) in {Dpi, -1}
      && ReadProperty(n.item, 6151) in {Pixels(width), -1}
      && ReadProperty(n.item, 6152) in {Pixels(height), -1}
      && ReadProperty(n.device, 3088) in {Handling(adf), -1}
      && ReadProperty(n.device, 3087) == Handling(adf)
  {
    ConfiguredResolution(item, width, height);
    ConfiguredExtent(item, width, height);
    WrittenOrAbsent(device, 3088, Handling(adf));
  }

  /** After a write that raises nothing, the property reads as the value written or is absent. */
  lemma WrittenOrAbsent(properties: seq<Property>, id: int, value: int)
    requires WriteProperty(properties, id, value).1.None?
    ensures ReadProperty(WriteProperty(properties, id, value).0, id) in {value, -1}
  {
    if FirstIndexOf(properties, id) != -1 {
      ReadAfterWrite(properties, id, value);
    }
  }

  /**
   * The `DeviceInfo` `ScanOne` connects to: the loop over the device list has
   * no `break`, so the last entry with the selected id wins.
   */
  function LastDeviceWithId(infos: seq<DeviceInfo>, deviceId: string): (r: Option<DeviceInfo>)
    ensures r.None? <==> forall j :: 0 <= j < |infos| ==> infos[j].deviceId != deviceId
    ensures r.Some? ==> exists k :: 0 <= k < |infos| && infos[k] == r.value && infos[k].deviceId == deviceId
                                  && forall j :: k < j < |infos| ==> infos[j].deviceId != deviceId
  {
    if |infos| == 0 then None
    else if infos[|infos| - 1].deviceId == deviceId then Some(infos[|infos| - 1])
    else LastDeviceWithId(infos[..|infos| - 1], deviceId)
  }

  /** What a `ScanOne` call yields: the path of a scanned image, null, or an exception. */
  datatype ScanResult = Scanned(path: string) | NoPage | Raised(error: Exception)

  /**
   * One `ScanOne` call: its result, the new `_lastItem` (`None` when no
   * property was set), the position in the transfer script afterwards, and the image file it
   * left on disk, if any.
   */
  datatype ScanStep = ScanStep(result: ScanResult, lastItem: Option<string>, next: nat, saved: Option<string>)

  /** True for the paper-empty COM error that `ScanOne` turns into a quiet null. */
  predicate IsPaperEmpty(ex: Exception) {
    ex.ComException? && ex.code == PaperEmpty
  }

  /** What the transfer dialog does when no more transfers are scripted: the feeder is empty. */
  const FeederEmpty: Exception := ComException(PaperEmpty, "Paper empty")

  /**
   * `ShowTransfer`, `SaveFile` and `XImage.FromFile` in sequence, on the
   * transfer at position `next` of the script: the result, the position
   * afterwards, the file written.
   */
  function TransferImage(script: seq<Transfer>, next: nat): (r: (ScanResult, nat, Option<string>))
    ensures r.0.Scanned? ==> next < |script| && r.1 == next + 1 && r.2 == Some(r.0.path)
    ensures r.1 == next || (next < |script| && r.1 == next + 1)
  {
    if next >= |script| then (Raised(FeederEmpty), next, None)
    else
      match script[next]
      case TransferFailed(ex) => (Raised(ex), next + 1, None)
      case Transferred(path, saveFault, loadFault) =>
        if saveFault.Some? then (Raised(saveFault.value), next + 1, None)
        else if loadFault.Some? then (Raised(loadFault.value), next + 1, Some(path))
        else (Scanned(path), next + 1, Some(path))
  }

  /** The `catch (COMException)` of `ScanOne`: the paper-empty error becomes null, anything else propagates. */
  function CatchPaperEmpty(step: ScanStep): (r: ScanStep)
    ensures r.result.Raised? ==> !IsPaperEmpty(r.result.error)
    ensures r.lastItem == step.lastItem && r.next == step.next && r.saved == step.saved
  {
    if step.result.Raised? && IsPaperEmpty(step.result.error) then step.(result := NoPage) else step
  }

  /**
   * How far a `ScanOne` call gets before the transfer, which does not depend
   * on the transfer script: no device with the selected id, an exception
   * (with the last property write, if any), a document handling the device
   * does not confirm, or a device ready to transfer.
   */
  datatype Preparation =
    | Absent
    | Halted(error: Exception, lastWrite: Option<string>)
    | Declined(written: string)
    | Prepared(written: string)

  /** The part of `ScanOne` up to the transfer: find the device, connect, and negotiate the settings. */
  function Prepare(infos: seq<DeviceInfo>, deviceId: string, adf: bool, width: int, height: int): Preparation {
    match LastDeviceWithId(infos, deviceId)
    case None => Absent
    case Some(info) =>
      match info.connection
      case Refused(ex) => Halted(ex, None)
      case Connected(device, item) =>
        var n := Negotiate(device, item, adf, width, height);
        match n.agreement
        case Refusal(ex) => Halted(ex, Some(n.lastItem))
        case Mismatch => Declined(n.lastItem)
        case Ready => Prepared(n.lastItem)
  }

  /** The rest of a `ScanOne` call that got as far as `prep`, against the transfer script. */
  function Attempt(prep: Preparation, script: seq<Transfer>, next: nat): (r: ScanStep)
    ensures r.result.Scanned? ==> next < |script| && r.next == next + 1 && r.saved == Some(r.result.path)
    ensures r.next == next || (next < |script| && r.next == next + 1)
  {
    match prep
    case Absent => ScanStep(NoPage, None, next, None)
    case Halted(ex, written) => CatchPaperEmpty(ScanStep(Raised(ex), written, next, None))
    case Declined(written) => ScanStep(NoPage, Some(written), next, None)
    case Prepared(written) =>
      var (result, rest, saved) := TransferImage(script, next);
      CatchPaperEmpty(ScanStep(result, Some(written), rest, saved))
  }

  /** One `ScanOne` call against the device list and the transfer script. */
  function ScanOne(infos: seq<DeviceInfo>, deviceId: string, adf: bool, width: int, height: int, script: seq<Transfer>, next: nat): (r: ScanStep)
    ensures r.result.Scanned? ==> next < |script| && r.next == next + 1 && r.saved == Some(r.result.path)
    ensures r.next == next || (next < |script| && r.next == next + 1)
  {
    Attempt(Prepare(infos, deviceId, adf, width, height), script, next)
  }

  /** Without a device of the selected id, `ScanOne` quietly returns null and touches nothing. */
  lemma {:induction false} ScanOneWithoutDevice(infos: seq<DeviceInfo>, deviceId: string, adf: bool, width: int, height: int, script: seq<Transfer>, next: nat)
    requires forall j :: 0 <= j < |infos| ==> infos[j].deviceId != deviceId
    ensures ScanOne(infos, deviceId, adf, width, height, script, next) == ScanStep(NoPage, None, next, None)
  {
  }

  /** A refused connection propagates its error unless it is the paper-empty error, which gives a quiet null. */
  lemma {:induction false} ScanOneRefused(infos: seq<DeviceInfo>, deviceId: string, adf: bool, width: int, height: int, script: seq<Transfer>, next: nat)
    requires var d := LastDeviceWithId(infos, deviceId); d.Some? && d.value.connection.Refused?
    ensures var e := LastDeviceWithId(infos, deviceId).value.connection.error;
      ScanOne(infos, deviceId, adf, width, height, script, next)
        == ScanStep(if IsPaperEmpty(e) then NoPage else Raised(e), None, next, None)
  {
  }

  /**
   * A property write or the handling-status read that raises during
   * negotiation propagates its error
   * (a quiet null for the paper-empty error); no transfer is attempted and
   * `_lastItem` names the write that failed.
   */
  lemma {:induction false} ScanOneNegotiationFails(infos: seq<DeviceInfo>, deviceId: string, adf: bool, width: int, height: int, script: seq<Transfer>, next: nat)
    requires var d := LastDeviceWithId(infos, deviceId);
      d.Some? && d.value.connection.Connected?
      && Negotiate(d.value.connection.deviceProperties, d.value.connection.itemProperties, adf, width, height).agreement.Refusal?
    ensures var c := LastDeviceWithId(infos, deviceId).value.connection;
      var n := Negotiate(c.deviceProperties, c.itemProperties, adf, width, height);
      ScanOne(infos, deviceId, adf, width, height, script, next)
        == ScanStep(if IsPaperEmpty(n.agreement.error) then NoPage else Raised(n.agreement.error), Some(n.lastItem), next, None)
  {
  }

  /** When the device reports a different document handling than requested, `ScanOne` quietly returns null without a transfer. */
  lemma {:induction false} ScanOneMismatch(infos: seq<DeviceInfo>, deviceId: string, adf: bool, width: int, height: int, script: seq<Transfer>, next: nat)
    requires var d := LastDeviceWithId(infos, deviceId);
      d.Some? && d.value.connection.Connected?
      && Negotiate(d.value.connection.deviceProperties, d.value.connection.itemProperties, adf, width, height).agreement.Mismatch?
    ensures ScanOne(infos, deviceId, adf, width, height, script, next) == ScanStep(NoPage, Some(DeviceLabel(3088, Handling(adf))), next, None)
  {
  }

  // ---------------------------------------------------------------------------
  // The scan click

  /** How the click's loop ends: one flatbed page done, `ScanOne` returned null, or an exception escaped. */
  datatype RunEnd = FlatbedDone | NoMorePages | Failed(error: Exception)

  /**
   * The loop of `buttonScanPages_Click`: the images scanned, in order, how
   * the loop ended, the final `_lastItem`, the device managers created and
   * the position in the transfer script afterwards, and the image files
   * left on disk.
   */
  datatype Run = Run(images: seq<string>, end: RunEnd, lastItem: Option<string>, managers: nat, next: nat, saved: set<string>)

  /** The image file a call left on disk, as a set. */
  function SavedBy(step: ScanStep): set<string> {
    if step.saved.Some? then {step.saved.value} else {}
  }

  /** The image a call returned, as a list. */
  function Delivered(result: ScanResult): seq<string> {
    if result.Scanned? then [result.path] else []
  }

  /** How the loop ends after a call that does not let it go on: the exception, the null, or the single flatbed page. */
  function EndOf(result: ScanResult): RunEnd {
    match result
    case Raised(ex) => Failed(ex)
    case NoPage => NoMorePages
    case Scanned(_) => FlatbedDone
  }

  /** `_lastItem` after a call: the call's last property write, or the earlier value when it wrote none. */
  function Latest(step: ScanStep, lastItem: Option<string>): Option<string> {
    if step.lastItem.Some? then step.lastItem else lastItem
  }

  /** A run that scanned `images` and left `saved` on disk before going on as `rest`. */
  function Resume(images: seq<string>, saved: set<string>, rest: Run): Run {
    Run(images + rest.images, rest.end, rest.lastItem, rest.managers, rest.next, saved + rest.saved)
  }

  /**
   * The loop of the click from device manager number `managers` and
   * position `next` of the script on, where `prepare(m)` is how far the call
   * that creates device manager `m` gets before the transfer: the loop goes
   * on while calls deliver images with the feeder on.
   */
  function RunFrom(prepare: nat -> Preparation, adf: bool, script: seq<Transfer>, managers: nat, next: nat, lastItem: Option<string>): Run
    decreases |script| - next
  {
    var step := Attempt(prepare(managers), script, next);
    var latest := Latest(step, lastItem);
    match step.result
    case NoPage => Run([], NoMorePages, latest, managers + 1, step.next, SavedBy(step))
    case Raised(ex) => Run([], Failed(ex), latest, managers + 1, step.next, SavedBy(step))
    case Scanned(path) =>
      if !adf then Run([path], FlatbedDone, latest, managers + 1, step.next, SavedBy(step))
      else Resume([path], SavedBy(step), RunFrom(prepare, adf, script, managers + 1, step.next, latest))
  }

  /**
   * What a scan click works against: the device lists successive device
   * managers enumerate, the selected scanner, the feeder setting and page
   * size read from the window, and the transfer script.
   */
  datatype Click = Click(devices: seq<seq<DeviceInfo>>, deviceId: string, adf: bool, width: int, height: int, script: seq<Transfer>)

  /**
   * How far the call that creates device manager number `m` gets before the
   * transfer: it enumerates that manager's devices, connects and negotiates
   * afresh.
   */
  function Preparations(c: Click): nat -> Preparation {
    (m: nat) => PreparationAt(c, m)
  }

  /** The preparation of the click's call made with device manager number `m`. */
  function PreparationAt(c: Click, m: nat): Preparation {
    Prepare(DevicesAt(c.devices, m), c.deviceId, c.adf, c.width, c.height)
  }

  /** The click's loop, from device manager number `managers` and position `next` of the script on. */
  function ScanRun(c: Click, managers: nat, next: nat, lastItem: Option<string>): Run {
    RunFrom(Preparations(c), c.adf, c.script, managers, next, lastItem)
  }

  /** Resuming twice is resuming once with both prefixes. */
  lemma ResumeTwice(images: seq<string>, saved: set<string>, more: seq<string>, moreSaved: set<string>, rest: Run)
    ensures Resume(images, saved, Resume(more, moreSaved, rest)) == Resume(images + more, saved + moreSaved, rest)
  {
    assert images + (more + rest.images) == (images + more) + rest.images;
    assert saved + (moreSaved + rest.saved) == (saved + moreSaved) + rest.saved;
  }

  /** A call that does not go on with the loop ends the run with what it did. */
  lemma RunStops(prepare: nat -> Preparation, adf: bool, script: seq<Transfer>, managers: nat, next: nat, lastItem: Option<string>)
    requires var step := Attempt(prepare(managers), script, next);
      !(step.result.Scanned? && adf)
    ensures var step := Attempt(prepare(managers), script, next);
      RunFrom(prepare, adf, script, managers, next, lastItem)
        == Run(Delivered(step.result), EndOf(step.result), Latest(step, lastItem), managers + 1, step.next, SavedBy(step))
  {
  }

  /** A call that scans with the feeder on leads to the rest of the run, with the next device manager. */
  lemma RunGoesOn(prepare: nat -> Preparation, adf: bool, script: seq<Transfer>, managers: nat, next: nat, lastItem: Option<string>)
    requires var step := Attempt(prepare(managers), script, next);
      step.result.Scanned? && adf
    ensures var step := Attempt(prepare(managers), script, next);
      RunFrom(prepare, adf, script, managers, next, lastItem)
        == Resume([step.result.path], SavedBy(step), RunFrom(prepare, adf, script, managers + 1, step.next, Latest(step, lastItem)))
  {
  }

  /** With the feeder off a click adds at most one page. */
  lemma FlatbedScansAtMostOnePage(prepare: nat -> Preparation, script: seq<Transfer>, managers: nat, next: nat, lastItem: Option<string>)
    ensures |RunFrom(prepare, false, script, managers, next, lastItem).images| <= 1
  {
  }

  /**
   * Every call of the loop creates one device manager and consumes at most
   * one transfer: one call per image, and one more for the call that ends
   * the loop unless that was the single flatbed page.
   */
  lemma {:induction false} OneManagerPerCall(prepare: nat -> Preparation, adf: bool, script: seq<Transfer>,
                                             managers: nat, next: nat, lastItem: Option<string>)
    ensures var r := RunFrom(prepare, adf, script, managers, next, lastItem);
      && r.managers == managers + |r.images| + (if r.end.FlatbedDone? then 0 else 1)
      && next + |r.images| <= r.next <= next + |r.images| + (if r.end.FlatbedDone? then 0 else 1)
    decreases |script| - next
  {
    var step := Attempt(prepare(managers), script, next);
    if step.result.Scanned? && adf {
      RunGoesOn(prepare, adf, script, managers, next, lastItem);
      OneManagerPerCall(prepare, adf, script, managers + 1, step.next, Latest(step, lastItem));
    } else {
      RunStops(prepare, adf, script, managers, next, lastItem);
    }
  }

  /** An exception that escapes the loop is never the paper-empty error. */
  lemma {:induction false} RunNeverFailsOnEmptyFeeder(prepare: nat -> Preparation, adf: bool, script: seq<Transfer>,
                                                      managers: nat, next: nat, lastItem: Option<string>)
    ensures var r := RunFrom(prepare, adf, script, managers, next, lastItem);
      r.end.Failed? ==> !IsPaperEmpty(r.end.error)
    decreases |script| - next
  {
    var step := Attempt(prepare(managers), script, next);
    if step.result.Scanned? && adf {
      RunNeverFailsOnEmptyFeeder(prepare, adf, script, managers + 1, step.next, Latest(step, lastItem));
    }
  }

  /** A call whose device manager lists no device of the selected id ends the click quietly, scanning nothing. */
  lemma MissingDeviceScansNothing(c: Click, managers: nat, next: nat, lastItem: Option<string>)
    requires var infos := DevicesAt(c.devices, managers);
      forall j :: 0 <= j < |infos| ==> infos[j].deviceId != c.deviceId
    ensures ScanRun(c, managers, next, lastItem) == Run([], NoMorePages, lastItem, managers + 1, next, {})
  {
    assert Preparations(c)(managers) == Absent;
    RunStops(Preparations(c), c.adf, c.script, managers, next, lastItem);
  }

  /**
   * Once the negotiation succeeds, a call's result is that of the transfer,
   * the paper-empty error again giving a quiet null.
   */
  lemma {:induction false} ScanOneWhenReady(infos: seq<DeviceInfo>, deviceId: string, adf: bool, width: int, height: int, script: seq<Transfer>, next: nat)
    requires var d := LastDeviceWithId(infos, deviceId);
      d.Some? && d.value.connection.Connected?
      && Negotiate(d.value.connection.deviceProperties, d.value.connection.itemProperties, adf, width, height).agreement.Ready?
    ensures var step := ScanOne(infos, deviceId, adf, width, height, script, next);
      var t := TransferImage(script, next);
      && step.next == t.1 && step.saved == t.2
      && step.lastItem == Some(DeviceLabel(3088, Handling(adf)))
      && step.result == (if t.0.Raised? && IsPaperEmpty(t.0.error) then NoPage else t.0)
  {
  }

  /** A transfer that delivers an image without any fault. */
  predicate Clean(t: Transfer) {
    t.Transferred? && t.saveFault.None? && t.loadFault.None?
  }

  /** The paths of the leading clean transfers. */
  function CleanImages(script: seq<Transfer>, next: nat): seq<string>
    decreases |script| - next
  {
    if next < |script| && Clean(script[next]) then [script[next].tempPath] + CleanImages(script, next + 1) else []
  }

  /**
   * The images of the leading calls that both find the scanner ready and
   * meet a clean transfer: call `k` of them uses device manager
   * `managers + k` and transfer `next + k`.
   */
  function ReadyCleanImages(prepare: nat -> Preparation, script: seq<Transfer>, managers: nat, next: nat): seq<string>
    decreases |script| - next
  {
    if next < |script| && prepare(managers).Prepared? && Clean(script[next])
    then [script[next].tempPath] + ReadyCleanImages(prepare, script, managers + 1, next + 1)
    else []
  }

  /**
   * The ready, clean calls are what a call delivers, one at a time; a call
   * that delivers nothing consumes a transfer only when the scanner was
   * ready for it.
   */
  lemma {:induction false} ReadyCleanImagesStep(prepare: nat -> Preparation, script: seq<Transfer>, managers: nat, next: nat)
    ensures var step := Attempt(prepare(managers), script, next);
      && (step.result.Scanned? ==>
            ReadyCleanImages(prepare, script, managers, next) == [step.result.path] + ReadyCleanImages(prepare, script, managers + 1, step.next)
            && step.next == next + 1)
      && (!step.result.Scanned? ==>
            ReadyCleanImages(prepare, script, managers, next) == []
            && step.next == if prepare(managers).Prepared? && next < |script| then next + 1 else next)
  {
  }

  /**
   * With the feeder on, a click adds exactly the images of its leading calls
   * that find the scanner ready and meet a clean transfer, in script order;
   * it creates one device manager per image and one for the call that ends
   * it, and consumes one transfer per image and one more when that last
   * call got as far as a transfer.
   */
  lemma {:induction false} FeederScansReadyCleanPrefix(prepare: nat -> Preparation, script: seq<Transfer>,
                                                       managers: nat, next: nat, lastItem: Option<string>)
    requires next <= |script|
    ensures var r := RunFrom(prepare, true, script, managers, next, lastItem);
      var k := |r.images|;
      && r.images == ReadyCleanImages(prepare, script, managers, next)
      && next + k <= |script|
      && r.managers == managers + k + 1
      && r.next == if prepare(managers + k).Prepared? && next + k < |script| then next + k + 1 else next + k
    decreases |script| - next
  {
    var step := Attempt(prepare(managers), script, next);
    ReadyCleanImagesStep(prepare, script, managers, next);
    if step.result.Scanned? {
      RunGoesOn(prepare, true, script, managers, next, lastItem);
      FeederScansReadyCleanPrefix(prepare, script, managers + 1, step.next, Latest(step, lastItem));
    } else {
      RunStops(prepare, true, script, managers, next, lastItem);
    }
  }

  /** While every call finds the scanner ready, the ready clean calls are the leading clean transfers. */
  lemma {:induction false} StayingReadyIsClean(prepare: nat -> Preparation, script: seq<Transfer>, managers: nat, next: nat)
    requires forall m: nat :: managers <= m ==> prepare(m).Prepared?
    ensures ReadyCleanImages(prepare, script, managers, next) == CleanImages(script, next)
    decreases |script| - next
  {
    if next < |script| && Clean(script[next]) {
      StayingReadyIsClean(prepare, script, managers + 1, next + 1);
    }
  }

  /**
   * With the feeder on and a scanner that accepts the settings on every
   * call, a click adds exactly the images of the leading clean transfers, in
   * script order, and consumes those transfers and the one after them,
   * which ends it.
   */
  lemma FeederScansCleanPrefix(prepare: nat -> Preparation, script: seq<Transfer>, managers: nat, next: nat, lastItem: Option<string>)
    requires next <= |script|
    requires forall m: nat :: managers <= m ==> prepare(m).Prepared?
    ensures var r := RunFrom(prepare, true, script, managers, next, lastItem);
      && r.images == CleanImages(script, next)
      && next + |r.images| <= |script|
      && r.managers == managers + |r.images| + 1
      && r.next == if next + |r.images| < |script| then next + |r.images| + 1 else |script|
  {
    FeederScansReadyCleanPrefix(prepare, script, managers, next, lastItem);
    StayingReadyIsClean(prepare, script, managers, next);
  }

  /**
   * A click against a machine whose every device manager lists the same
   * devices, with a scanner that accepts the settings, adds the images of
   * the leading clean transfers.
   */
  lemma FixedScannerScansCleanPrefix(c: Click, managers: nat, next: nat, lastItem: Option<string>)
    requires c.adf && next <= |c.script| && |c.devices| == 1
    requires Prepare(c.devices[0], c.deviceId, c.adf, c.width, c.height).Prepared?
    ensures ScanRun(c, managers, next, lastItem).images == CleanImages(c.script, next)
  {
    forall m: nat | managers <= m
      ensures Preparations(c)(m).Prepared?
    {
      SameDevicesEveryTime(c.devices, m);
    }
    FeederScansCleanPrefix(Preparations(c), c.script, managers, next, lastItem);
  }

  /** With a single device list scripted, every device manager lists it. */
  lemma SameDevicesEveryTime(devices: seq<seq<DeviceInfo>>, m: nat)
    requires |devices| == 1
    ensures DevicesAt(devices, m) == devices[0]
  {
  }
}
