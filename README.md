# PdfScan in Dafny

PdfScan is a small Windows program that scans pages from a WIA scanner into a PDF document.
The user can scan from the flatbed (one page per click) or from the automatic document
feeder (pages until the feeder is empty). They type a title, author, subject and keywords
and save the result. Settings persist in an XML file through a reusable settings base class.

This project models the program's core:

- the main window:
  - the scan loop, and `ScanOne` with its WIA property negotiation;
  - the translation of WIA error codes into text;
  - saving (file-name sanitising and document metadata);
  - clearing, closing, and the paper-size lookup on load;
- the settings base class:
  - property setters with change notification and the proxy mark;
  - the retrying `Save` and the tolerant `Load`;
  - the reset, the proxy update, logging, validation and the constructor;
- the product settings:
  - its setters;
  - its part of the file (written and read back);
  - its reset;
- the paper-size catalogue, the custom message box and the empty-list converter.

Modules:

- `Wrappers`, `Exceptions` and `Text` hold shared values and the .NET string and number
  conversions the core relies on. These are `Convert.ToBoolean`, `Convert.ToInt32`/`ToInt64`,
  `String.Trim` and invariant-culture formatting.
- `PaperSizes` is `PaperSize.cs`.
- `EmptyListConverter` is `EmptyListCollapsedConverter.cs`.
- `MessageBoxes` is `CatfoodMessageBox.xaml.cs`. It has a class for the window and a scripted
  sequence of user actions.
- `Wia` models the COM objects the window talks to. A device or item is a list of numbered
  properties, and reading or writing one may throw. The machine is an `Environment` object
  holding:
  - the device list each new `DeviceManager` enumerates, in the order they are created;
  - a script of transfer outcomes;
  - the files on disk.
- `Capture` is the specification of one `ScanOne` call and of a whole scan click, as pure
  functions and lemmas. Each call creates its own device manager, finds the device, connects
  and negotiates afresh, so a click is specified against one preparation per call.
- `PdfScanWindow` is the `MainWindow` class. Its methods are proved against `Capture`.
- `CatfoodSettings` is `CatfoodSettingsBase.cs`.
  - Pure functions give each setter's effect, the elements `Save` writes and what `Load` reads
    back.
  - The class `SettingsBase` holds the mutable state.
  - `SettingsStore` is the settings file plus a script of write outcomes.
- `PdfScanSettings` is `UserSettings.cs`.
  - The class `UserSettings` holds the base part as a component (`core`). The base `Save` takes
    the product's elements. The base `Load` returns the elements it hands on.

The settings file is modelled as a sequence of elements, each a name and its text. The main
round-trip results:

- reading back what `Save` writes leaves the base settings exactly as they were, with no
  notification and no log line;
- read into any other settings object, it gives every base setting `Save` wrote its saved
  value and leaves the rest as they were; a freshly reset object ends up with exactly the
  saved values when none of them is an empty string or a key without an e-mail;
- it hands the product exactly its own elements;
- reading those restores every product setting.

Where the behaviour described for the program and its code differ, the model follows the code:

- When the device reports a document handling other than the one requested, `ScanOne`
  returns null quietly. It does not raise an error.
- The device list is searched without a `break`, so the last entry with the selected id is used.
- The guard of the rethrow after `Save`'s retry loop tests `retryAttempt == 4`, but the loop
  always ends with it at 5 or with no exception. The rethrow is kept as written and never
  fires. A save that fails five times is logged and otherwise silent.
- The proxy-port validation accepts 0 to 65536.

## Model

| member | source | states |
|---|---|---|
| PaperSizes.GetSizes | PdfScan/PaperSize.cs:21-43 | the fourteen sizes in catalogue order with their dimensions; the default is the Letter entry itself |
| PaperSizes.NamesDistinct | PdfScan/PaperSize.cs:27-40 | no two catalogue entries share a description |
| PaperSizes.DescriptionsIdentifyEntries | PdfScan/PaperSize.cs:27-40 | a lookup by description can match at most one entry |
| PaperSizes.LedgerIsTabloidRotated | PdfScan/PaperSize.cs:27-40 | Ledger has Tabloid's width and height swapped |
| EmptyListConverter.Convert | PdfScan/EmptyListCollapsedConverter.cs:18-32 | Visible exactly for a non-null list with at least one element, Collapsed for anything else |
| EmptyListConverter.ConvertIgnoresContext | PdfScan/EmptyListCollapsedConverter.cs:18-32 | the result depends on the bound value only, not on target type, parameter or culture |
| EmptyListConverter.ConvertBack | PdfScan/EmptyListCollapsedConverter.cs:35-38 | always throws NotImplementedException |
| MessageBoxes.CatfoodMessageBox.constructor | PdfScan/CatfoodMessageBox.xaml.cs:136-139 | a new box: result OK, open, no owner, not in the taskbar, both buttons as declared in the window's markup |
| MessageBoxes.CatfoodMessageBox.Configure | PdfScan/CatfoodMessageBox.xaml.cs:212-229 | the window icon, message, title, box type, box icon and exception are set; a loaded owner becomes the owner, otherwise the box is centred on the screen and shown in the taskbar |
| MessageBoxes.CatfoodMessageBox.WindowLoaded | PdfScan/CatfoodMessageBox.xaml.cs:236-291 | the result is reset to OK; button captions, visibility, default and cancel flags follow the box type |
| MessageBoxes.CatfoodMessageBox.Button2Click | PdfScan/CatfoodMessageBox.xaml.cs:293-311 | OK for OK/Cancel, Yes for Yes/No, unchanged for OK; the box closes |
| MessageBoxes.CatfoodMessageBox.Button1Click | PdfScan/CatfoodMessageBox.xaml.cs:313-331 | OK for OK, Cancel for OK/Cancel, No for Yes/No; the box closes |
| MessageBoxes.CatfoodMessageBox.Perform | PdfScan/CatfoodMessageBox.xaml.cs:236-331 | a click reaches only a visible button; Enter presses the default button, Escape the cancel button; closing keeps the current result |
| MessageBoxes.CatfoodMessageBox.ShowDialog | PdfScan/CatfoodMessageBox.xaml.cs:231 | the modal loop ends with the result of the first action that closes the box |
| MessageBoxes.Show | PdfScan/CatfoodMessageBox.xaml.cs:200-234 | a null message or title throws ArgumentNullException before a box exists; otherwise the result is the one the user's actions decide |
| MessageBoxes.DialogResultAllowed | PdfScan/CatfoodMessageBox.xaml.cs:293-331 | every result is one the box type's buttons stand for, or OK |
| MessageBoxes.ClosingAnswersOk | PdfScan/CatfoodMessageBox.xaml.cs:238 | closing the window before pressing a button answers OK |
| MessageBoxes.DecisionPrefix | PdfScan/CatfoodMessageBox.xaml.cs:231 | actions after the one that closed the box change nothing |
| MessageBoxes.DecisionAppend | PdfScan/CatfoodMessageBox.xaml.cs:231 | while undecided, the next action decides |
| MessageBoxes.YesNoKeysAnswerYes | PdfScan/CatfoodMessageBox.xaml.cs:244-265 | on a Yes/No box both Enter and Escape answer Yes, since button 2 is both default and cancel |
| Wia.FirstIndexOf | PdfScan/MainWindow.xaml.cs:474-534 | the index of the first property with the number, or -1 when none has it |
| Wia.ReadAfterWrite | PdfScan/MainWindow.xaml.cs:474-534 | a successful write is seen by the next read of the same property |
| Wia.WriteKeepsOtherProperties | PdfScan/MainWindow.xaml.cs:474-518 | a write changes no other property and no numbering |
| Wia.ReadAfterOtherWrite | PdfScan/MainWindow.xaml.cs:474-534 | a write leaves reads of other property numbers unchanged |
| Wia.FailedWriteChangesNothing | PdfScan/MainWindow.xaml.cs:474-518 | a write that throws, or finds no property, leaves the list as it was |
| Wia.ReadFaultAfterWrite | PdfScan/MainWindow.xaml.cs:474-534 | a write does not change which reads throw |
| Wia.FirstIndexOfSameIds | PdfScan/MainWindow.xaml.cs:474-534 | the search depends only on the property numbers |
| Wia.PropertyBag.constructor | PdfScan/MainWindow.xaml.cs:354-378 | a device or item holds the given properties |
| Wia.PropertyBag.SetIntProperty | PdfScan/MainWindow.xaml.cs:505-518 | the foreach/break loop sets exactly the first matching property, or throws and changes nothing |
| Wia.PropertyBag.GetIntProperty | PdfScan/MainWindow.xaml.cs:520-534 | the foreach/break loop returns the first matching value, or -1; reading a matching property whose value cannot be read throws |
| Wia.Environment.constructor | PdfScan/MainWindow.xaml.cs:354-437 | the machine the window scans on: the device list of every manager to be created, transfer script, files, locked files; no manager created yet |
| Wia.Environment.DeviceInfos | PdfScan/MainWindow.xaml.cs:361-362 | a new device manager enumerates the next scripted device list |
| Wia.DevicesAt | PdfScan/MainWindow.xaml.cs:361-362 | manager n sees the n-th device list, the last one for every later manager, and none when nothing is scripted |
| Capture.WiaErrorOrMessage | PdfScan/MainWindow.xaml.cs:439-472 | a known WIA HRESULT gives its fixed text; any other code or exception gives the exception's message |
| Capture.WiaErrorTextsDistinct | PdfScan/MainWindow.xaml.cs:446-463 | each known WIA code has its own text |
| Capture.WiaErrorOrMessageTellsCodesApart | PdfScan/MainWindow.xaml.cs:439-472 | two WIA exceptions with different known codes are reported differently |
| Capture.TruncatedQuotient | PdfScan/MainWindow.xaml.cs:382-383 | the `(int)` cast truncates toward zero, also for negative sizes |
| Capture.BestEffortKeeps | PdfScan/MainWindow.xaml.cs:385-401 | the ignored greyscale and bit-depth writes touch no other property |
| Capture.ConfiguredResolution | PdfScan/MainWindow.xaml.cs:380-381 | after configuring without an exception, the item has the requested resolutions or lacks them |
| Capture.ConfiguredExtent | PdfScan/MainWindow.xaml.cs:382-383 | after configuring without an exception, the item has the requested extent in pixels or lacks it |
| Capture.NegotiatedSettings | PdfScan/MainWindow.xaml.cs:380-409 | a negotiation that ends ready wrote every requested setting, and the device reports the requested handling |
| Capture.WrittenOrAbsent | PdfScan/MainWindow.xaml.cs:474-534 | after a write that throws nothing, the property reads as the value written or -1 |
| Capture.LastDeviceWithId | PdfScan/MainWindow.xaml.cs:363-369 | the device loop has no break, so the last entry with the selected id is used; none when no entry has it |
| Capture.TransferImage | PdfScan/MainWindow.xaml.cs:411-421 | the transfer result, the script position after it, and the temporary file written |
| Capture.CatchPaperEmpty | PdfScan/MainWindow.xaml.cs:425-434 | the paper-empty COM error becomes a quiet null; every other exception propagates |
| Capture.Attempt | PdfScan/MainWindow.xaml.cs:380-434 | negotiation then transfer: a failure raises, a handling mismatch returns null without a transfer |
| Capture.ScanOne | PdfScan/MainWindow.xaml.cs:354-437 | one call never lets the paper-empty error escape |
| Capture.ScanOneWithoutDevice | PdfScan/MainWindow.xaml.cs:363-378 | without a device of the selected id the call returns null and touches nothing |
| Capture.ScanOneRefused | PdfScan/MainWindow.xaml.cs:371-434 | a refused connection propagates its error, except the paper-empty error, which gives null |
| Capture.ScanOneNegotiationFails | PdfScan/MainWindow.xaml.cs:380-434 | a failing property write, or a failing read of the handling status, propagates; no transfer happens and `_lastItem` names the last write |
| Capture.ScanOneMismatch | PdfScan/MainWindow.xaml.cs:403-423 | a device reporting another handling gives null without a transfer |
| Capture.ScanOneWhenReady | PdfScan/MainWindow.xaml.cs:411-434 | once negotiated, the result is the transfer's, the paper-empty error giving null |
| Capture.ResumeTwice | PdfScan/MainWindow.xaml.cs:132-154 | a run that resumes twice is one resumption with both prefixes |
| Capture.RunStops | PdfScan/MainWindow.xaml.cs:132-154 | a call that yields null, throws, or scans on the flatbed ends the loop, having created one device manager |
| Capture.RunGoesOn | PdfScan/MainWindow.xaml.cs:132-154 | a page scanned with the feeder on continues the loop with the next device manager |
| Capture.FlatbedScansAtMostOnePage | PdfScan/MainWindow.xaml.cs:148-152 | with the feeder off a click adds at most one page, whatever each call finds |
| Capture.OneManagerPerCall | PdfScan/MainWindow.xaml.cs:132-154 | each call creates one device manager: one per image plus one for the call that ends the loop, unless that was the flatbed page; each consumes at most one transfer |
| Capture.RunNeverFailsOnEmptyFeeder | PdfScan/MainWindow.xaml.cs:425-434 | the exception that ends a click is never the paper-empty error |
| Capture.FeederScansReadyCleanPrefix | PdfScan/MainWindow.xaml.cs:132-154 | with the feeder on, a click adds exactly the images of the leading calls that are both ready and meet a fault-free transfer, in order; one manager per call, and the transfers consumed |
| Capture.StayingReadyIsClean | PdfScan/MainWindow.xaml.cs:132-154 | while every call is ready, the ready and fault-free calls are the leading fault-free transfers |
| Capture.MissingDeviceScansNothing | PdfScan/MainWindow.xaml.cs:363-378 | when the first call's manager lists no device with the selected id, the click scans nothing and ends quietly |
| Capture.FeederScansCleanPrefix | PdfScan/MainWindow.xaml.cs:132-154 | with the feeder on and a scanner ready on every call, a click adds exactly the leading fault-free transfers' images, in order, and consumes them and the one that ends it |
| Capture.FixedScannerScansCleanPrefix | PdfScan/MainWindow.xaml.cs:132-154 | when every manager lists the same devices and the scanner accepts the settings, a feeder click adds the leading fault-free transfers' images |
| PdfScanWindow.PagesOfCarryImages | PdfScan/MainWindow.xaml.cs:134-145 | the pages added for some images show exactly those images, in order |
| PdfScanWindow.PagesOfAppend | PdfScan/MainWindow.xaml.cs:134-145 | pages for two runs of images are the pages for each, in order |
| PdfScanWindow.ImagesOfAppend | PdfScan/MainWindow.xaml.cs:134-145 | appending a page appends its image |
| PdfScanWindow.AddImagesTwice | PdfScan/MainWindow.xaml.cs:132-154 | adding images in two goes equals adding all of them at once |
| PdfScanWindow.AddOneImage | PdfScan/MainWindow.xaml.cs:134-145 | one image adds one page showing it, its thumbnail, its file to delete, and marks the document unsaved |
| PdfScanWindow.AddNoImages | PdfScan/MainWindow.xaml.cs:132-154 | no images change nothing |
| PdfScanWindow.LoopStep | PdfScan/MainWindow.xaml.cs:132-154 | one pass of the loop, with the next device manager, either ends the run with its outcome or leads to the rest of the run |
| PdfScanWindow.TitleTextPlural | PdfScan/MainWindow.xaml.cs:91-95 | the caption says "Page" for exactly one page and "Pages" otherwise |
| PdfScanWindow.SanitizedNameIsValid | PdfScan/MainWindow.xaml.cs:190-216 | the suggested file name holds no invalid character |
| PdfScanWindow.SanitizeKeepsValidName | PdfScan/MainWindow.xaml.cs:190-216 | a title without invalid characters is suggested unchanged |
| PdfScanWindow.SanitizeIdempotent | PdfScan/MainWindow.xaml.cs:190-216 | sanitising a sanitised name changes nothing |
| PdfScanWindow.SanitizeCountsCharacters | PdfScan/MainWindow.xaml.cs:190-216 | every valid character is kept as often as it occurs, and no invalid one |
| PdfScanWindow.IsBadFileNameChar | PdfScan/MainWindow.xaml.cs:200-207 | the inner loop answers whether the character is an invalid file-name character |
| PdfScanWindow.FileNameFromTitle | PdfScan/MainWindow.xaml.cs:196-212 | the outer loop yields the title's valid characters in order |
| PdfScanWindow.SavedInfoStable | PdfScan/MainWindow.xaml.cs:222-226 | saving again with the metadata a save recorded records the same metadata |
| PdfScanWindow.FindSize | PdfScan/MainWindow.xaml.cs:303-310 | the first size whose description equals the setting, and the default when no size has it |
| PdfScanWindow.FindSizeInCatalogue | PdfScan/MainWindow.xaml.cs:303-310 | in the catalogue the lookup finds the one entry of that name, or Letter |
| PdfScanWindow.SelectSize | PdfScan/MainWindow.xaml.cs:303-310 | the loop's selection agrees with the lookup |
| PdfScanWindow.MainWindow.constructor | PdfScan/MainWindow.xaml.cs:60-78 | the window starts with the settings' close-on-save and feeder values, no scanner, no document yet (`Window_Loaded` creates it) and Save and Clear disabled |
| PdfScanWindow.MainWindow.UpdateState | PdfScan/MainWindow.xaml.cs:80-96 | Save and Clear are enabled exactly when there are pages; the caption counts them |
| PdfScanWindow.MainWindow.ResetState | PdfScan/MainWindow.xaml.cs:98-109 | a new empty document, nothing to save, empty metadata boxes, no thumbnails |
| PdfScanWindow.MainWindow.SetDeviceIntProperty | PdfScan/MainWindow.xaml.cs:474-487 | `_lastItem` records the device write, then the first matching property is set |
| PdfScanWindow.MainWindow.GetDeviceIntProperty | PdfScan/MainWindow.xaml.cs:489-503 | the first matching device property's value, or -1; the read may throw |
| PdfScanWindow.MainWindow.SetItemIntProperty | PdfScan/MainWindow.xaml.cs:505-518 | `_lastItem` records the item write, then the first matching property is set |
| PdfScanWindow.MainWindow.GetItemIntProperty | PdfScan/MainWindow.xaml.cs:520-534 | the first matching item property's value, or -1; the read may throw |
| PdfScanWindow.MainWindow.ConfigureScanItem | PdfScan/MainWindow.xaml.cs:380-401 | the item writes as the capture model orders them, stopping at the first that throws |
| PdfScanWindow.MainWindow.NegotiateWith | PdfScan/MainWindow.xaml.cs:380-409 | the negotiation, including a throwing handling-status read, ends as the capture model's `Negotiate` says |
| PdfScanWindow.MainWindow.TransferPage | PdfScan/MainWindow.xaml.cs:411-421 | the transfer as the capture model says; the image is tracked for deletion only once it is saved and loaded |
| PdfScanWindow.MainWindow.FindDevice | PdfScan/MainWindow.xaml.cs:361-369 | the loop over the new manager's devices picks the last one with the selected id |
| PdfScanWindow.MainWindow.ScanOne | PdfScan/MainWindow.xaml.cs:354-437 | a new device manager is created and its devices searched; the result, `_lastItem`, script position, files and thumbnail lists follow `Capture.ScanOne` on that manager's devices |
| PdfScanWindow.MainWindow.ScanDevice | PdfScan/MainWindow.xaml.cs:371-434 | with the device found (or none), connection, negotiation and transfer follow `Capture.ScanOne` |
| PdfScanWindow.MainWindow.SelectDevice | PdfScan/MainWindow.xaml.cs:266-288 | a chosen id becomes the scanner; a failure is logged and shown and keeps the old one |
| PdfScanWindow.MainWindow.ScanLoop | PdfScan/MainWindow.xaml.cs:132-154 | the pages added, thumbnails, device managers created, transfers consumed and loop outcome are those of the click's run |
| PdfScanWindow.MainWindow.RunLoop | PdfScan/MainWindow.xaml.cs:132-154 | the while loop keeps the run still to come as its invariant and ends where the run ends |
| PdfScanWindow.MainWindow.ScanPass | PdfScan/MainWindow.xaml.cs:132-153 | one pass up to the break tests, in terms of the run still to come |
| PdfScanWindow.MainWindow.ScanNext | PdfScan/MainWindow.xaml.cs:132-145 | one ScanOne call with the next device manager and, for an image, one page of the click's size |
| PdfScanWindow.MainWindow.AddPage | PdfScan/MainWindow.xaml.cs:134-145 | a page of the click's size showing the image; the document needs saving |
| PdfScanWindow.MainWindow.ScanPages | PdfScan/MainWindow.xaml.cs:126-154 | width then height are read; an unreadable box throws before scanning; otherwise the loop runs at that size |
| PdfScanWindow.MainWindow.ScanSized | PdfScan/MainWindow.xaml.cs:128-174 | the loop at the size read, then the report of its failure, then the state update |
| PdfScanWindow.MainWindow.ScanAndReport | PdfScan/MainWindow.xaml.cs:126-174 | the loop and the report of the failure that ends it |
| PdfScanWindow.MainWindow.RejectSize | PdfScan/MainWindow.xaml.cs:126-174 | a width read before the height fails is kept; the format error is logged and shown with the last property write; the buttons and caption are updated |
| PdfScanWindow.MainWindow.ReportScanFailure | PdfScan/MainWindow.xaml.cs:156-169 | the failure is logged and shown with the WIA text and the last property write |
| PdfScanWindow.MainWindow.ScanPagesClick | PdfScan/MainWindow.xaml.cs:111-175 | without a scanner the selection runs first and can end the click; otherwise the scan proceeds, and the state is updated at the end |
| PdfScanWindow.MainWindow.SaveClick | PdfScan/MainWindow.xaml.cs:177-259 | the dialog suggests the sanitised title; a picked path is saved to, cancelling changes nothing |
| PdfScanWindow.MainWindow.SaveTo | PdfScan/MainWindow.xaml.cs:222-254 | trimmed metadata and the creator are stored and the file written; saved, and closed when close-on-save is set; otherwise a new document; a failed write is logged and shown and leaves the saved flag as it was |
| PdfScanWindow.MainWindow.Ask | PdfScan/MainWindow.xaml.cs:574-579 | the question is shown, and the answer is whether the user pressed Yes |
| PdfScanWindow.MainWindow.ClearClick | PdfScan/MainWindow.xaml.cs:570-584 | a saved document is left alone; otherwise a new document only on Yes |
| PdfScanWindow.MainWindow.WindowClosing | PdfScan/MainWindow.xaml.cs:323-337 | an unsaved document asks, and closing is cancelled unless the answer is Yes |
| PdfScanWindow.MainWindow.WindowClosed | PdfScan/MainWindow.xaml.cs:339-352 | every temporary file that exists is deleted, except locked ones, which stay silently |
| PdfScanWindow.MainWindow.WindowLoaded | PdfScan/MainWindow.xaml.cs:290-316 | the caption's version text, the catalogue with the saved size selected (Letter when none matches), a new document |
| CatfoodSettings.SeverityTextsDistinguish | PdfScan/CatfoodSettingsBase.cs:1020-1034 | warnings and errors are marked apart from each other and from the rest |
| CatfoodSettings.DateFromTicks | PdfScan/CatfoodSettingsBase.cs:856-877 | a tick count outside DateTime's range throws; inside it gives that date |
| CatfoodSettings.GuidText | PdfScan/CatfoodSettingsBase.cs:634-636 | the id is written in the 36-character "D" format with hyphens at 8, 13, 18, 23 |
| CatfoodSettings.ParseGuidText | PdfScan/CatfoodSettingsBase.cs:845-855 | the written id is read back as the same id |
| CatfoodSettings.WithSettles | PdfScan/CatfoodSettingsBase.cs:98-491 | assigning a property its own value changes nothing |
| CatfoodSettings.AppliedIdempotent | PdfScan/CatfoodSettingsBase.cs:98-491 | setting a property twice to one value has the effect of setting it once |
| CatfoodSettings.AppliedNotifiesChange | PdfScan/CatfoodSettingsBase.cs:98-491 | a setter notifies exactly when the value changes, once, with its own name; proxy setters mark the proxy |
| CatfoodSettings.ElementOfName | PdfScan/CatfoodSettingsBase.cs:69-93 | every base element name is recognised as that element |
| CatfoodSettings.BaseNameInitial | PdfScan/CatfoodSettingsBase.cs:69-93 | every base element name starts with "B" |
| CatfoodSettings.ParseElementDispatch | PdfScan/CatfoodSettingsBase.cs:735-885 | Load calls a setter for exactly the base element names |
| CatfoodSettings.FallbacksAreResetValues | PdfScan/CatfoodSettingsBase.cs:735-885 | every catch block assigns the value the reset gives |
| CatfoodSettings.ReadAllAppend | PdfScan/CatfoodSettingsBase.cs:722-886 | reading two runs of elements is reading one then the other |
| CatfoodSettings.ForwardedAppend | PdfScan/CatfoodSettingsBase.cs:876-884 | the elements handed on from two runs are each run's, in order |
| CatfoodSettings.ForwardedOfSaved | PdfScan/CatfoodSettingsBase.cs:579-644 | no element Save writes for the base settings is handed on |
| CatfoodSettings.ReadAllOfNoOps | PdfScan/CatfoodSettingsBase.cs:722-886 | elements that each change nothing leave the settings unchanged |
| CatfoodSettings.ReadSavedElement | PdfScan/CatfoodSettingsBase.cs:735-875 | reading back the element Save wrote for a setting, in any settings object, calls that setting's setter with the value it was saved from |
| CatfoodSettings.SavedElementsLeaveAsIs | PdfScan/CatfoodSettingsBase.cs:579-644 | every element Save writes leaves the settings unchanged when read back |
| CatfoodSettings.LoadOfSaved | PdfScan/CatfoodSettingsBase.cs:722-886 | reading back what Save wrote changes no value, notifies nothing, logs nothing |
| CatfoodSettings.ReadAllOfSaved | PdfScan/CatfoodSettingsBase.cs:722-886 | reading the elements Save writes, in any order, gives each written setting its saved value and keeps the others |
| CatfoodSettings.RestoredInSetting | PdfScan/CatfoodSettingsBase.cs:579-644 | after reading some saved elements, a setting holds the saved value exactly when it is among them and was written |
| CatfoodSettings.RestoredSetting | PdfScan/CatfoodSettingsBase.cs:579-644 | a setting Save writes takes the saved value; one it skips (an empty string, or the key without an e-mail) keeps the reader's |
| CatfoodSettings.SaveOrderRestores | PdfScan/CatfoodSettingsBase.cs:579-644 | reading the elements in Save's order restores every written setting |
| CatfoodSettings.LoadRestoresSaved | PdfScan/CatfoodSettingsBase.cs:722-886 | reading the saved file into any settings object takes the saved value for every setting Save wrote and keeps its own for the rest |
| CatfoodSettings.FreshLoadRestores | PdfScan/CatfoodSettingsBase.cs:579-644 | a reset object reads back exactly the saved settings if and only if no string is empty and no key lacks its e-mail; otherwise those come back null or 0 |
| CatfoodSettings.DataErrorOnlyForProxy | PdfScan/CatfoodSettingsBase.cs:1243-1298 | only the four proxy columns can be in error, and only while a proxy server is used |
| CatfoodSettings.DataErrorPortRange | PdfScan/CatfoodSettingsBase.cs:1261-1270 | the port is accepted exactly from 0 to 65536 |
| CatfoodSettings.ValidSettingsGiveCompleteProxy | PdfScan/CatfoodSettingsBase.cs:961-1008 | valid settings give an explicit proxy with an address, and user and password when credentials are on |
| CatfoodSettings.WrittenAppend | PdfScan/CatfoodSettingsBase.cs:1015-1050 | logging two runs of lines writes both runs, in order |
| CatfoodSettings.ProxyUpdateClears | PdfScan/CatfoodSettingsBase.cs:961-1008 | the mark is cleared exactly when building the proxy does not throw, and the installed proxy then follows the settings |
| CatfoodSettings.ProxyUpdateSettles | PdfScan/CatfoodSettingsBase.cs:961-1008 | an update right after one that got through changes nothing |
| CatfoodSettings.ProxyNeedsAddressAndPort | PdfScan/CatfoodSettingsBase.cs:971-973 | an explicit proxy is installed only with an address and a port from 0 to 65535; without them `new WebProxy` throws, which is logged, and the mark and the old proxy stay |
| CatfoodSettings.ValidPortCanFail | PdfScan/CatfoodSettingsBase.cs:1261-1270 | port 65536 passes validation, yet the proxy update still fails on it |
| CatfoodSettings.FailedAttempts | PdfScan/CatfoodSettingsBase.cs:551-675 | the number of consecutive failed writes, bounded by the limit |
| CatfoodSettings.FailedAttemptsMeaning | PdfScan/CatfoodSettingsBase.cs:551-675 | the attempts before it fail, and the next succeeds unless the limit was reached |
| CatfoodSettings.RetryLines | PdfScan/CatfoodSettingsBase.cs:659-670 | one warning per failed attempt |
| CatfoodSettings.Backoff | PdfScan/CatfoodSettingsBase.cs:671-674 | one pause per failed attempt |
| CatfoodSettings.BackoffMeaning | PdfScan/CatfoodSettingsBase.cs:671-674 | the i-th pause is 250 ms times i + 1 |
| CatfoodSettings.SaveRetriesBounded | PdfScan/CatfoodSettingsBase.cs:551-675 | Save stops at the first write that succeeds and gives up after five failures |
| CatfoodSettings.RetriedMeaning | PdfScan/CatfoodSettingsBase.cs:551-675 | at most five writes, the file written exactly when one succeeded, one warning and pause per failure |
| CatfoodSettings.WithInstanceIdSet | PdfScan/CatfoodSettingsBase.cs:891-895 | after Load the settings always have an instance id, and an existing one is kept |
| CatfoodSettings.AppNameError | PdfScan/CatfoodSettingsBase.cs:1197-1198 | the constructor throws exactly for a null or empty application name |
| CatfoodSettings.SettingsStore.constructor | PdfScan/CatfoodSettingsBase.cs:547-693 | the settings file and the outcomes of the writes to come |
| CatfoodSettings.SettingsStore.Write | PdfScan/CatfoodSettingsBase.cs:570-646 | a write replaces the file unless it throws |
| CatfoodSettings.SettingsBase.constructor | PdfScan/CatfoodSettingsBase.cs:1195-1225 | reset settings, the proxy marked for updating, nothing notified or logged |
| CatfoodSettings.SettingsBase.LogMessage | PdfScan/CatfoodSettingsBase.cs:1015-1050 | a line with the severity marker is appended only while logging is enabled |
| CatfoodSettings.SettingsBase.LogException | PdfScan/CatfoodSettingsBase.cs:1058-1065 | the message is logged with the exception after it |
| CatfoodSettings.SettingsBase.Set | PdfScan/CatfoodSettingsBase.cs:98-491 | the setter's effect on values, notifications, proxy mark and log |
| CatfoodSettings.SettingsBase.ResetSettingsCore | PdfScan/CatfoodSettingsBase.cs:943-958 | the defaults, assigned without notification |
| CatfoodSettings.SettingsBase.TryWrite | PdfScan/CatfoodSettingsBase.cs:551-675 | one pass: a write, and on failure the warning and the pause |
| CatfoodSettings.SettingsBase.WriteWithRetries | PdfScan/CatfoodSettingsBase.cs:551-675 | the loop ends with the failures counted, the last exception only after five failures, and the file written as the retry model says |
| CatfoodSettings.SettingsBase.Save | PdfScan/CatfoodSettingsBase.cs:547-693 | writes the base then the product elements with retries; never throws; updates the proxy and raises SettingsSaved |
| CatfoodSettings.SettingsBase.ReadElements | PdfScan/CatfoodSettingsBase.cs:722-886 | each element is read as the load model says, and the unknown elements are returned in order |
| CatfoodSettings.SettingsBase.Load | PdfScan/CatfoodSettingsBase.cs:709-901 | an existing file is read, the proxy updated, then an instance id is made if missing |
| CatfoodSettings.SettingsBase.UpdateProxyServer | PdfScan/CatfoodSettingsBase.cs:961-1008 | a marked proxy is installed and the mark cleared, unless building it throws (always for a missing address or a port outside 0 to 65535), which is logged |
| Text.TrimStartKeepsSuffix | PdfScan/MainWindow.xaml.cs:222-226 | trimming the start keeps a suffix and removes only white space |
| Text.TrimEndKeepsPrefix | PdfScan/MainWindow.xaml.cs:222-226 | trimming the end keeps a prefix and removes only white space |
| Text.TrimWhereKeepsMiddle | PdfScan/MainWindow.xaml.cs:222-226 | trimming keeps a contiguous middle; all that is cut is white space |
| Text.TrimWhereIdentity | PdfScan/MainWindow.xaml.cs:222-226 | a text without white space at either end is left alone |
| Text.TrimIdempotent | PdfScan/MainWindow.xaml.cs:222-226 | trimming twice is trimming once |
| Text.DigitsValueOfNatToString | PdfScan/CatfoodSettingsBase.cs:623-624 | the decimal digits written for a number read back as that number |
| Text.NatToStringInjective | PdfScan/CatfoodSettingsBase.cs:623-624 | distinct numbers are written differently |
| Text.ParseIntegerOfDigits | PdfScan/CatfoodSettingsBase.cs:826 | a run of digits, with or without a minus sign, parses to its value |
| Text.ParseIntegerOfIntToString | PdfScan/CatfoodSettingsBase.cs:826 | the invariant text of an integer parses back to it |
| Text.ParseInt32 | PdfScan/CatfoodSettingsBase.cs:826 | a 32-bit integer when the text is one; none on a format error or overflow |
| Text.ParseInt64 | PdfScan/CatfoodSettingsBase.cs:859 | a 64-bit integer when the text is one; none on a format error or overflow |
| Text.ParseInt32OfIntToString | PdfScan/CatfoodSettingsBase.cs:826 | a written 32-bit integer reads back as itself |
| Text.ParseInt64OfIntToString | PdfScan/CatfoodSettingsBase.cs:859 | a written 64-bit tick count reads back as itself |
| Text.ParseBoolOfBoolText | PdfScan/CatfoodSettingsBase.cs:738 | a written boolean reads back as itself |
| PdfScanSettings.UserAppliedNotifiesChange | PdfScan/UserSettings.cs:31-171 | a setter notifies exactly when the value changes, with its own name, and a repeat does nothing |
| PdfScanSettings.CountedRunCapped | PdfScan/MainWindow.xaml.cs:69-72 | a run raises the count by one while it is below 10, notifying it; the count never passes 10 by counting |
| PdfScanSettings.UserElementOfName | PdfScan/UserSettings.cs:182-236 | every product element name is recognised as that element |
| PdfScanSettings.ParseUserElement | PdfScan/UserSettings.cs:182-236 | a setter is called for exactly the five product element names |
| PdfScanSettings.UserFallbacksAreDefaults | PdfScan/UserSettings.cs:182-236 | each catch block assigns the value ResetSettings gives |
| PdfScanSettings.PaperSizeReadRaw | PdfScan/UserSettings.cs:210-213 | the paper size is taken as written, unchecked |
| PdfScanSettings.UnknownElementChangesNothing | PdfScan/UserSettings.cs:182-236 | an element changes nothing for every state exactly when its name is not a product element's |
| PdfScanSettings.UserSavedText | PdfScan/UserSettings.cs:238-264 | an element is written for every setting except a null or empty paper size |
| PdfScanSettings.ReadSavedUserElement | PdfScan/UserSettings.cs:182-264 | reading back a written element assigns the value it was written from |
| PdfScanSettings.UserLoadOfSaved | PdfScan/UserSettings.cs:182-264 | reading back what SaveToXmlWriter wrote restores all five values; an unwritten empty paper size keeps the old one |
| PdfScanSettings.UserElementsHandedOn | PdfScan/UserSettings.cs:238-264 | the base Load hands on every product element |
| PdfScanSettings.UserElementsLeaveBaseAsIs | PdfScan/UserSettings.cs:238-264 | the product's elements do not change the base settings |
| PdfScanSettings.SavedFileRestoresSettings | PdfScan/UserSettings.cs:238-264 | reading back the whole saved file leaves the base settings as saved and restores every product setting |
| PdfScanSettings.FileRestoresSettings | PdfScan/UserSettings.cs:238-264 | reading the saved file into other settings restores what Save wrote for the base, hands the product its own elements and restores every product setting |
| PdfScanSettings.UserSettings.constructor | PdfScan/UserSettings.cs:280-284 | base settings for "PdfScan", then the product defaults and the base reset |
| PdfScanSettings.UserSettings.Set | PdfScan/UserSettings.cs:31-171 | the setter's effect on the value and the notifications |
| PdfScanSettings.UserSettings.CountRun | PdfScan/MainWindow.xaml.cs:69-72 | the run count bump as `CountedRun` says |
| PdfScanSettings.UserSettings.LoadFromXmlElement | PdfScan/UserSettings.cs:182-236 | one handed-on element read as the load model says |
| PdfScanSettings.UserSettings.ReadHandedOn | PdfScan/CatfoodSettingsBase.cs:876-884 | the handed-on elements are read in order |
| PdfScanSettings.UserSettings.SaveToXmlWriter | PdfScan/UserSettings.cs:238-264 | the product elements in file order |
| PdfScanSettings.UserSettings.ResetSettings | PdfScan/UserSettings.cs:269-278 | product defaults, then the base reset, without notification |
| PdfScanSettings.UserSettings.Save | PdfScan/CatfoodSettingsBase.cs:547-693 | the base elements then the product's, with the base's retries: the writes made, the file written when one succeeded, one pause and one warning per failure, then the proxy update; the saved event is raised |
| PdfScanSettings.UserSettings.Load | PdfScan/CatfoodSettingsBase.cs:709-901 | the base reads the file and the product reads what the base hands on |

## Left out

- The scanner, the WIA dialogs, the file system and the clock are parameters:
  - the device list, a script of transfer outcomes, the files on disk and the files that cannot
    be deleted;
  - a script of the user's dialog actions;
  - a script of settings-file write outcomes;
  - the time used for resets and unreadable dates;
  - whether a non-empty proxy address is a valid host name (`new WebProxy` throws for one that
    is not). An empty address and a port outside 0 to 65535 are checked by the model itself.
- Paper sizes are in hundredths of an inch as integers, not `double` inches. The model takes the
  pixel count `(int)(150 * inches)` as the exact truncated quotient. The source multiplies
  doubles. For the catalogue's sizes the two agree except B5's height: 10.12 inches gives the
  double product 1517.9999999999998, so the source writes 1517 pixels to property 6152 (and
  into `_lastItem`), where the model writes 1518. Widths and heights typed with more than two
  decimals are not modelled.
- The transfer script is finite. A transfer past its end stands for the feeder reporting
  paper-empty, which is what ends a feeder click in the model. The source's loop has no such
  bound and goes on for as long as the feeder delivers pages.
- PDF rendering (`XGraphics`, page drawing), thumbnails' bitmaps and JPEG encoding are left
  out. A page is its size and image path; a thumbnail is its image path.
- The XML syntax of the settings file is left out. The file is a sequence of name/text
  elements, and a malformed or partially written file is not modelled.
- Creating the settings folder, `LoadFromXmlReader` (the base class's empty hook) and the
  `SettingsSaved` event's subscribers are left out. The event is a counter.
- Encryption of the registration e-mail and of the proxy domain, password and user is a pair
  of functions whose only assumed property is that decryption undoes encryption. The
  registration key is written in plain text.
- Only the "D" GUID format is modelled.
- `DumpException` and `DiagInfo` are a diagnostics string passed in. Log lines carry the
  severity marker, message and exception, but no timestamp or thread id.
- Locks (`_settingsLock`, `_loggingLock`) and threading are left out; the model is sequential.
- Base and product notifications are kept in two lists. Their interleaving within one call is
  not modelled.
- `NotifyPropertyChanged` checks the property name for null or empty. This is left out because
  every caller passes a constant name.
- The checkbox and paper-size combo box handlers (MainWindow.xaml.cs:536-568) are left out.
  They only copy a control's value into a setting, as `PdfScanSettings.UserSettings.Set` models.
- `Window_ContentRendered` and `buttonCancel_Click` are left out.
- The two short `CatfoodMessageBox.Show` overloads only forward to the full one with fixed
  arguments.
- The static `UserSettings.Settings` singleton is left out. The window receives its settings
  values as parameters.
- Creating a `DeviceManager`, enumerating its devices and taking `device.Items[1]` are modelled
  as never throwing; only a failed connection, property reads and writes, and the transfer
  throw.
- PdfScanWindow.MainWindow.WindowLoaded: the assembly version is passed in as three numbers.
- CatfoodSettings.SettingsBase.Save: the pauses are recorded as a list of durations, not slept.
