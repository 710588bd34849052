/**
 * The scanning window: it scans pages into a PDF document one click at a
 * time, tracks the temporary image files, saves the document with its
 * metadata, and keeps its title and buttons in step with the page count.
 * Sizes are in hundredths of an inch.
 */
module PdfScanWindow {
  import opened Wrappers
  import opened Exceptions
  import opened Text
  import opened Wia
  import opened Capture
  import opened PaperSizes
  import MessageBoxes

  // ---------------------------------------------------------------------------
  // Documents and what the window reports

  /** A PDF page: its size and the scanned image drawn on it. */
  datatype Page = Page(width: int, height: int, image: string)

  /** The document information dictionary. */
  datatype DocumentInfo = DocumentInfo(title: string, author: string, subject: string, keywords: string, creator: string)

  /** A PdfSharp `PdfDocument`: its pages and information. */
  datatype Document = Document(pages: seq<Page>, info: DocumentInfo)

  /** A freshly created document. */
  const NewDocument: Document := Document([], DocumentInfo("", "", "", "", ""))

  /** The creator recorded in every saved document. */
  const Creator: string := "PdfScan by Catfood Software: http://catfood.net/products/pdfscan/"

  /** A message box the window shows. */
  datatype Notice =
    | ScanFailureBox(error: Exception, lastItem: Option<string>)
    | SaveFailureBox(error: Exception)
    | SelectionFailureBox(error: Exception)
    | ClearQuestion
    | ExitQuestion
  {
    /** Failures show the error text (for a scan, followed by the last property write in parentheses); questions ask about the unsaved PDF. */
    function Message(): string {
      match this
      case ScanFailureBox(e, item) => WiaErrorOrMessage(e) + " (" + item.GetOr("") + ")"
      case SaveFailureBox(e) => WiaErrorOrMessage(e)
      case SelectionFailureBox(e) => WiaErrorOrMessage(e)
      case ClearQuestion => "PDF not saved - are you sure you want to clear all pages?"
      case ExitQuestion => "PDF not saved - are you sure you want to exit?"
    }

    function Caption(): string {
      match this
      case ScanFailureBox(_, _) => "Failed to scan - Catfood PdfScan"
      case SaveFailureBox(_) => "Failed to save - PdfScan"
      case SelectionFailureBox(_) => "Failed to select scanner - Catfood PdfScan"
      case ClearQuestion => "Clear All Pages? - Catfood PdfScan"
      case ExitQuestion => "Exit Catfood PdfScan?"
    }

    /** Failures are OK boxes with the error icon and carry the exception; questions are Yes/No boxes with the question icon. */
    function BoxType(): MessageBoxes.MessageBoxType {
      if ClearQuestion? || ExitQuestion? then MessageBoxes.YesNoBox else MessageBoxes.OkBox
    }

    function BoxIcon(): MessageBoxes.MessageBoxIcon {
      if ClearQuestion? || ExitQuestion? then MessageBoxes.Question else MessageBoxes.Error
    }

    function Details(): Option<Exception> {
      if ClearQuestion? || ExitQuestion? then None else Some(error)
    }
  }

  /**
   * An entry the window hands to the settings log: its message and the
   * exception. Every such call logs at `Warning`, so the severity is not kept.
   */
  datatype LogRecord = LogRecord(message: string, error: Exception)

  /** What `Convert.ToDouble` throws for a text box that does not hold a number. */
  const FormatError: Exception := ClrException("FormatException", "Input string was not in a correct format.")

  /** What the scanner selection dialog does: a device is chosen, or the dialog throws. */
  datatype Selection = Chosen(deviceId: string) | SelectionFailed(error: Exception)

  /** The selected scanner after `SelectDevice` ran on `selection`: a chosen id replaces the old one, a failure keeps it. */
  function SelectedDevice(current: string, selection: Selection): string {
    match selection
    case Chosen(id) => id
    case SelectionFailed(_) => current
  }

  /** What a failed selection logs. */
  function SelectionLog(selection: Selection): seq<LogRecord> {
    match selection
    case Chosen(_) => []
    case SelectionFailed(e) => [LogRecord("Failed to select scanner", e)]
  }

  /** What a failed selection shows. */
  function SelectionNotices(selection: Selection): seq<Notice> {
    match selection
    case Chosen(_) => []
    case SelectionFailed(e) => [SelectionFailureBox(e)]
  }


  /** The pages a click adds for the images it scanned, all of the click's size, in order. */
  function PagesOf(images: seq<string>, width: int, height: int): (pages: seq<Page>)
    ensures |pages| == |images|
    ensures forall i :: 0 <= i < |pages| ==> pages[i] == Page(width, height, images[i])
  {
    seq(|images|, i requires 0 <= i < |images| => Page(width, height, images[i]))
  }

  /** The images drawn on the pages, in page order. */
  function ImagesOf(pages: seq<Page>): (images: seq<string>)
    ensures |images| == |pages|
    ensures forall i :: 0 <= i < |images| ==> images[i] == pages[i].image
  {
    seq(|pages|, i requires 0 <= i < |pages| => pages[i].image)
  }

  /** The pages added for some images show exactly those images. */
  lemma PagesOfCarryImages(images: seq<string>, width: int, height: int)
    ensures ImagesOf(PagesOf(images, width, height)) == images
  {
    assert forall i :: 0 <= i < |images| ==> ImagesOf(PagesOf(images, width, height))[i] == images[i];
  }

  /** Appending images appends their pages. */
  lemma PagesOfAppend(images: seq<string>, more: seq<string>, width: int, height: int)
    ensures PagesOf(images + more, width, height) == PagesOf(images, width, height) + PagesOf(more, width, height)
  {
    var all, left, right := PagesOf(images + more, width, height), PagesOf(images, width, height), PagesOf(more, width, height);
    assert forall i :: 0 <= i < |all| ==> all[i] == (left + right)[i];
  }

  /** Appending a page appends its image. */
  lemma ImagesOfAppend(pages: seq<Page>, page: Page)
    ensures ImagesOf(pages + [page]) == ImagesOf(pages) + [page.image]
  {
    var all, left := ImagesOf(pages + [page]), ImagesOf(pages);
    assert forall i :: 0 <= i < |all| ==> all[i] == (left + [page.image])[i];
  }

  /**
   * What a scan click changes in the window: the document's pages, whether
   * it is saved, the thumbnails, and the files to delete on exit.
   */
  datatype PageState = PageState(pages: seq<Page>, docSaved: bool, pageImages: seq<string>, tempFiles: seq<string>)

  /** Adding scanned images: a page of the given size and a thumbnail per image, each tracked for deletion; any image leaves the document unsaved. */
  function AddImages(state: PageState, images: seq<string>, width: int, height: int): PageState {
    PageState(state.pages + PagesOf(images, width, height), state.docSaved && images == [],
              state.pageImages + images, state.tempFiles + images)
  }

  /** Adding images in two goes is adding them all at once. */
  lemma AddImagesTwice(state: PageState, images: seq<string>, more: seq<string>, width: int, height: int)
    ensures AddImages(AddImages(state, images, width, height), more, width, height) == AddImages(state, images + more, width, height)
  {
    PagesOfAppend(images, more, width, height);
    assert state.pages + PagesOf(images, width, height) + PagesOf(more, width, height)
      == state.pages + (PagesOf(images, width, height) + PagesOf(more, width, height));
    assert state.pageImages + images + more == state.pageImages + (images + more);
    assert state.tempFiles + images + more == state.tempFiles + (images + more);
  }

  /** Adding one image adds one page showing it, its thumbnail and its file to delete, and the document needs saving. */
  lemma AddOneImage(state: PageState, image: string, width: int, height: int)
    ensures AddImages(state, [image], width, height)
      == PageState(state.pages + [Page(width, height, image)], false, state.pageImages + [image], state.tempFiles + [image])
  {
    assert PagesOf([image], width, height) == [Page(width, height, image)];
  }

  /** Adding no images changes nothing. */
  lemma AddNoImages(state: PageState, width: int, height: int)
    ensures AddImages(state, [], width, height) == state
  {
    assert state.pages + [] == state.pages;
    assert state.pageImages + [] == state.pageImages;
    assert state.tempFiles + [] == state.tempFiles;
  }

  /**
   * One pass of the scan loop, on values: with `done` scanned and `saved`
   * left on disk so far and the rest of the run still to come from device
   * manager `managers` and position `next` of `script`, the next `ScanOne`
   * call either ends the run with what it delivered or leaves the rest of
   * the run to come from the next device manager and what it left.
   */
  lemma LoopStep(prepare: nat -> Preparation, adf: bool, script: seq<Transfer>, managers: nat, next: nat,
                 lastItem: Option<string>, done: seq<string>, saved: set<string>, run: Run)
    requires run == Resume(done, saved, RunFrom(prepare, adf, script, managers, next, lastItem))
    ensures var step := Attempt(prepare(managers), script, next);
      var now := done + Delivered(step.result);
      && (step.result.Scanned? && adf ==>
            run == Resume(now, saved + SavedBy(step), RunFrom(prepare, adf, script, managers + 1, step.next, Latest(step, lastItem))))
      && (!(step.result.Scanned? && adf) ==>
            run == Run(now, EndOf(step.result), Latest(step, lastItem), managers + 1, step.next, saved + SavedBy(step)))
  {
    var step := Attempt(prepare(managers), script, next);
    if step.result.Scanned? && adf {
      RunGoesOn(prepare, adf, script, managers, next, lastItem);
      ResumeTwice(done, saved, Delivered(step.result), SavedBy(step),
                  RunFrom(prepare, adf, script, managers + 1, step.next, Latest(step, lastItem)));
    } else {
      RunStops(prepare, adf, script, managers, next, lastItem);
      assert Delivered(step.result) + [] == Delivered(step.result);
      assert SavedBy(step) + {} == SavedBy(step);
      assert (done + Delivered(step.result)) == done + (Delivered(step.result) + []);
    }
  }

  /** The window caption: "{version}: {n} Page", with an "s" unless there is exactly one page. */
  function TitleText(version: string, pageCount: nat): string {
    version + ": " + IntToString(pageCount) + " Page" + (if pageCount == 1 then "" else "s")
  }

  /** The caption ends in "Page" for exactly one page and in "Pages" otherwise. */
  lemma TitleTextPlural(version: string, pageCount: nat)
    ensures var t := TitleText(version, pageCount);
      |t| >= 5 && (pageCount == 1 <==> t[|t| - 4..] == "Page") && (pageCount != 1 <==> t[|t| - 5..] == "Pages")
  {
    var p := version + ": " + IntToString(pageCount) + " Page";
    var t := TitleText(version, pageCount);
    assert p[|p| - 5..] == " Page";
    if pageCount == 1 {
      assert t == p;
    } else {
      assert t == p + "s";
      assert t[|t| - 5..] == "Pages";
      assert t[|t| - 4..] == "ages";
    }
  }

  /** The version text "Catfood PdfScan {major}.{minor:00}.{build:0000}". */
  function VersionString(major: nat, minor: nat, build: nat): string {
    "Catfood PdfScan " + NatToString(major) + "." + PadZeros(NatToString(minor), 2) + "." + PadZeros(NatToString(build), 4)
  }

  // ---------------------------------------------------------------------------
  // File names

  /** `Path.GetInvalidFileNameChars()` on Windows: the quote, angle brackets, bar, colon, star, question mark, slashes and control characters. */
  const InvalidFileNameChars: seq<char> :=
    [
      '\"', '<', '>', '|', '\0',
      '\U{0001}', '\U{0002}', '\U{0003}', '\U{0004}', '\U{0005}', '\U{0006}', '\U{0007}', '\U{0008}',
      '\U{0009}', '\U{000A}', '\U{000B}', '\U{000C}', '\U{000D}', '\U{000E}', '\U{000F}', '\U{0010}',
      '\U{0011}', '\U{0012}', '\U{0013}', '\U{0014}', '\U{0015}', '\U{0016}', '\U{0017}', '\U{0018}',
      '\U{0019}', '\U{001A}', '\U{001B}', '\U{001C}', '\U{001D}', '\U{001E}', '\U{001F}',
      ':', '*', '?', '\\', '/'
    ]

  predicate IsInvalidFileNameChar(c: char) {
    c in InvalidFileNameChars
  }

  /** The title with every invalid file-name character removed, the rest in order. */
  function SanitizeFileName(title: string): string {
    if title == [] then []
    else
      var last := title[|title| - 1];
      SanitizeFileName(title[..|title| - 1]) + (if IsInvalidFileNameChar(last) then [] else [last])
  }

  /** The suggested name holds no invalid character. */
  lemma {:induction false} SanitizedNameIsValid(title: string)
    ensures forall i :: 0 <= i < |SanitizeFileName(title)| ==> !IsInvalidFileNameChar(SanitizeFileName(title)[i])
  {
    if title != [] {
      SanitizedNameIsValid(title[..|title| - 1]);
    }
  }

  /** A title without invalid characters is suggested unchanged. */
  lemma {:induction false} SanitizeKeepsValidName(title: string)
    requires forall i :: 0 <= i < |title| ==> !IsInvalidFileNameChar(title[i])
    ensures SanitizeFileName(title) == title
  {
    if title != [] {
      SanitizeKeepsValidName(title[..|title| - 1]);
      assert title == title[..|title| - 1] + [title[|title| - 1]];
    }
  }

  /** Sanitising twice removes nothing more. */
  lemma SanitizeIdempotent(title: string)
    ensures SanitizeFileName(SanitizeFileName(title)) == SanitizeFileName(title)
  {
    SanitizedNameIsValid(title);
    SanitizeKeepsValidName(SanitizeFileName(title));
  }

  /** Sanitising keeps every valid character as often as the title has it, and no invalid one. */
  lemma {:induction false} SanitizeCountsCharacters(title: string)
    ensures forall c :: multiset(SanitizeFileName(title))[c] == if IsInvalidFileNameChar(c) then 0 else multiset(title)[c]
  {
    if title != [] {
      var init := title[..|title| - 1];
      SanitizeCountsCharacters(init);
      assert title == init + [title[|title| - 1]];
    }
  }

  /** The file name the save dialog suggests: the sanitised title, when a title was typed. */
  function SuggestedFileName(title: string): Option<string> {
    if |title| > 0 then Some(SanitizeFileName(title)) else None
  }

  /** The inner `foreach` of `buttonSave_Click`: whether `c` is one of the invalid file-name characters. */
  method IsBadFileNameChar(c: char) returns (bad: bool)
    ensures bad == IsInvalidFileNameChar(c)
  {
    var j := 0;
    while j < |InvalidFileNameChars|
      invariant 0 <= j <= |InvalidFileNameChars|
      invariant c !in InvalidFileNameChars[..j]
    {
      if c == InvalidFileNameChars[j] {
        return true;
      }
      j := j + 1;
    }
    assert InvalidFileNameChars[..j] == InvalidFileNameChars;
    return false;
  }

  /** The outer `foreach` of `buttonSave_Click`: the title's characters in order, the invalid ones dropped. */
  method FileNameFromTitle(title: string) returns (name: string)
    ensures name == SanitizeFileName(title)
  {
    name := [];
    var i := 0;
    while i < |title|
      invariant 0 <= i <= |title|
      invariant name == SanitizeFileName(title[..i])
    {
      var c := title[i];
      var bad := IsBadFileNameChar(c);
      assert title[..i + 1][..i] == title[..i];
      if !bad {
        name := name + [c];
      }
      i := i + 1;
    }
    assert title[..i] == title;
  }

  /** The information a saved document carries: the trimmed metadata boxes and the creator. */
  function SavedInfo(title: string, author: string, subject: string, keywords: string): DocumentInfo {
    DocumentInfo(Trim(title), Trim(author), Trim(subject), Trim(keywords), Creator)
  }

  /** Saving again with the metadata a save recorded records the same metadata. */
  lemma SavedInfoStable(title: string, author: string, subject: string, keywords: string)
    ensures var info := SavedInfo(title, author, subject, keywords);
      SavedInfo(info.title, info.author, info.subject, info.keywords) == info
  {
    TrimIdempotent(title);
    TrimIdempotent(author);
    TrimIdempotent(subject);
    TrimIdempotent(keywords);
  }

  // ---------------------------------------------------------------------------
  // Paper size lookup

  /** The size the window selects: the first catalogue entry named like the saved setting, else the default. */
  function FindSize(sizes: seq<PaperSize>, description: string, default: PaperSize): (r: PaperSize)
    ensures r == default || (r in sizes && r.description == description)
    ensures (exists i :: 0 <= i < |sizes| && sizes[i].description == description) ==> r in sizes && r.description == description
    ensures forall i :: (0 <= i < |sizes| && sizes[i].description == description &&
                         (forall j :: 0 <= j < i ==> sizes[j].description != description)) ==> r == sizes[i]
    ensures (forall i :: 0 <= i < |sizes| ==> sizes[i].description != description) ==> r == default
  {
    if sizes == [] then default
    else if sizes[0].description == description then sizes[0]
    else FindSize(sizes[1..], description, default)
  }

  /** In the catalogue the lookup finds the one entry of that name, or falls back to Letter. */
  lemma {:induction false} FindSizeInCatalogue(description: string, i: int)
    requires 0 <= i < 14 && GetSizes().0[i].description == description
    ensures FindSize(GetSizes().0, description, GetSizes().1) == GetSizes().0[i]
  {
    var sizes := GetSizes().0;
    var r := FindSize(sizes, description, GetSizes().1);
    var j :| 0 <= j < |sizes| && sizes[j] == r;
    DescriptionsIdentifyEntries(i, j);
  }

  /** The `foreach` of `Window_Loaded`: the first size named like the saved setting, else the default. */
  method SelectSize(sizes: seq<PaperSize>, description: string, default: PaperSize) returns (selected: PaperSize)
    ensures selected == FindSize(sizes, description, default)
  {
    selected := default;
    var i := 0;
    while i < |sizes|
      invariant 0 <= i <= |sizes|
      invariant FindSize(sizes[i..], description, default) == FindSize(sizes, description, default)
    {
      if sizes[i].description == description {
        selected := sizes[i];
        return;
      }
      assert sizes[i..][1..] == sizes[i + 1..];
      i := i + 1;
    }
  }

  // ---------------------------------------------------------------------------
  // The window

  class MainWindow {
    /** The selected scanner's id; the empty text stands for none. */
    var deviceId: string
    /** The document being assembled; `None` until the window has loaded. */
    var doc: Option<Document>
    var docSaved: bool
    /** The page size of the last scan click. */
    var width: int
    var height: int
    var adf: bool
    var versionString: string
    var sizes: seq<PaperSize>
    var selectedSize: Option<PaperSize>
    /** The images shown as page thumbnails. */
    var pageImages: seq<string>
    /** Every temporary image file to delete when the window closes. */
    var tempFilesToDelete: seq<string>
    /** The last property write attempted, for error messages. */
    var lastItem: Option<string>

    /** Text boxes and check boxes; a size box holds `None` when its text is not a number. */
    var titleText: string
    var subjectText: string
    var authorText: string
    var keywordsText: string
    var widthText: Option<int>
    var heightText: Option<int>
    var adfChecked: bool
    var closeOnSaveChecked: bool

    var saveEnabled: bool
    var clearEnabled: bool
    var windowTitle: string
    var closeRequested: bool

    /** The message boxes shown, the warnings logged, and the PDF files written. */
    var notices: seq<Notice>
    var logged: seq<LogRecord>
    var savedPdfs: map<string, Document>

    /**
     * The pages and their thumbnails match one for one; before there is a
     * document there are no thumbnails.
     */
    ghost predicate Valid()
      reads this`doc, this`pageImages
    {
      && (doc.None? ==> pageImages == [])
      && (doc.Some? ==> ImagesOf(doc.value.pages) == pageImages)
    }

    /** The number of pages, zero before a document exists. */
    function PageCount(): nat
      reads this`doc
    {
      if doc.Some? then |doc.value.pages| else 0
    }

    /** The title, author, subject and keywords boxes. */
    function MetadataBoxes(): seq<string>
      reads this`titleText, this`authorText, this`subjectText, this`keywordsText
    {
      [titleText, authorText, subjectText, keywordsText]
    }

    /** The window's pages, saved flag, thumbnails and deletion list, once a document exists. */
    ghost function Pages(): PageState
      requires doc.Some?
      reads this`doc, this`docSaved, this`pageImages, this`tempFilesToDelete
    {
      PageState(doc.value.pages, docSaved, pageImages, tempFilesToDelete)
    }

    constructor (closeOnSave: bool, useAdf: bool, widthText: Option<int>, heightText: Option<int>)
      ensures Valid() && doc.None? && pageImages == [] && tempFilesToDelete == []
      ensures deviceId == "" && lastItem.None? && adfChecked == useAdf && closeOnSaveChecked == closeOnSave
      ensures !saveEnabled && !clearEnabled && windowTitle == TitleText("", 0)
    {
      tempFilesToDelete := [];
      pageImages := [];
      deviceId := "";
      doc := None;
      docSaved := false;
      width, height, adf := 850, 1100, true;
      versionString := "";
      sizes, selectedSize := [], None;
      lastItem := None;
      titleText, subjectText, authorText, keywordsText := "", "", "", "";
      this.widthText, this.heightText := widthText, heightText;
      adfChecked := useAdf;
      closeOnSaveChecked := closeOnSave;
      closeRequested := false;
      notices, logged, savedPdfs := [], [], map[];
      new;
      UpdateState();
    }

    /** `UpdateState`: Save and Clear are enabled exactly when there are pages, and the caption counts them. */
    method UpdateState()
      modifies this`saveEnabled, this`clearEnabled, this`windowTitle
      ensures saveEnabled == clearEnabled == (PageCount() > 0)
      ensures windowTitle == TitleText(versionString, PageCount())
    {
      var pageCount := 0;
      if doc.Some? {
        pageCount := |doc.value.pages|;
      }
      saveEnabled := pageCount > 0;
      clearEnabled := pageCount > 0;
      windowTitle := TitleText(versionString, pageCount);
    }

    /** `ResetState`: a new empty document, nothing to save, empty metadata boxes and no thumbnails. */
    method ResetState()
      requires Valid()
      modifies this`doc, this`docSaved, this`titleText, this`subjectText, this`authorText, this`keywordsText
      modifies this`pageImages, this`saveEnabled, this`clearEnabled, this`windowTitle
      ensures Valid()
      ensures doc == Some(NewDocument) && docSaved && pageImages == []
      ensures titleText == subjectText == authorText == keywordsText == ""
      ensures !saveEnabled && !clearEnabled && windowTitle == TitleText(versionString, 0)
    {
      doc := Some(NewDocument);
      docSaved := true;
      titleText, subjectText, authorText, keywordsText := "", "", "", "";
      pageImages := [];
      UpdateState();
    }

    // -------------------------------------------------------------------------
    // Property helpers

    /** `SetDeviceIntProperty`: records the attempt in `_lastItem`, then sets the first matching property. */
    method SetDeviceIntProperty(device: PropertyBag, id: int, value: int) returns (raised: Option<Exception>)
      modifies this`lastItem, device
      ensures lastItem == Some(DeviceLabel(id, value))
      ensures (device.properties, raised) == WriteProperty(old(device.properties), id, value)
    {
      lastItem := Some(DeviceLabel(id, value));
      raised := device.SetIntProperty(id, value);
    }

    /** `GetDeviceIntProperty`: the first matching property's value, or -1; reading it may throw. */
    method GetDeviceIntProperty(device: PropertyBag, id: int) returns (ret: int, raised: Option<Exception>)
      ensures raised == ReadFault(device.properties, id)
      ensures raised.None? ==> ret == ReadProperty(device.properties, id)
    {
      ret, raised := device.GetIntProperty(id);
    }

    /** `SetItemIntProperty`: records the attempt in `_lastItem`, then sets the first matching property. */
    method SetItemIntProperty(item: PropertyBag, id: int, value: int) returns (raised: Option<Exception>)
      modifies this`lastItem, item
      ensures lastItem == Some(ItemLabel(id, value))
      ensures (item.properties, raised) == WriteProperty(old(item.properties), id, value)
    {
      lastItem := Some(ItemLabel(id, value));
      raised := item.SetIntProperty(id, value);
    }

    /** `GetItemIntProperty`: the first matching property's value, or -1; reading it may throw. */
    method GetItemIntProperty(item: PropertyBag, id: int) returns (ret: int, raised: Option<Exception>)
      ensures raised == ReadFault(item.properties, id)
      ensures raised.None? ==> ret == ReadProperty(item.properties, id)
    {
      ret, raised := item.GetIntProperty(id);
    }

    // -------------------------------------------------------------------------
    // ScanOne

    /** The item half of the negotiation, as `ScanOne` performs it. */
    method ConfigureScanItem(item: PropertyBag) returns (raised: Option<Exception>)
      modifies this`lastItem, item
      ensures var c := ConfigureItem(old(item.properties), width, height);
        item.properties == c.0 && raised == c.1 && lastItem == Some(c.2)
    {
      raised := SetItemIntProperty(item, 6147, Dpi);
      if raised.Some? { return; }
      raised := SetItemIntProperty(item, 6148, Dpi);
      if raised.Some? { return; }
      raised := SetItemIntProperty(item, 6151, Pixels(width));
      if raised.Some? { return; }
      raised := SetItemIntProperty(item, 6152, Pixels(height));
      if raised.Some? { return; }
      var ignored := SetItemIntProperty(item, 6146, 2);
      ignored := SetItemIntProperty(item, 4104, 8);
    }

    /** The whole negotiation: the item, then the device's document handling, read back (which may throw) and compared. */
    method NegotiateWith(device: PropertyBag, item: PropertyBag) returns (agreement: Agreement)
      requires device != item
      modifies this`lastItem, device, item
      ensures var n := Negotiate(old(device.properties), old(item.properties), adf, width, height);
        agreement == n.agreement && lastItem == Some(n.lastItem)
        && device.properties == n.device && item.properties == n.item
    {
      var raised := ConfigureScanItem(item);
      if raised.Some? {
        return Refusal(raised.value);
      }
      var deviceHandling := if adf then 1 else 2;
      raised := SetDeviceIntProperty(device, 3088, deviceHandling);
      if raised.Some? {
        return Refusal(raised.value);
      }
      var handlingStatus;
      handlingStatus, raised := GetDeviceIntProperty(device, 3087);
      if raised.Some? {
        return Refusal(raised.value);
      }
      if handlingStatus == deviceHandling {
        agreement := Ready;
      } else {
        agreement := Mismatch;
      }
    }

    /** `ShowTransfer`, saving the image to a temporary `.jpg` and loading it back; the image is tracked only once both succeed. */
    method TransferPage(env: Environment) returns (result: ScanResult)
      modifies env`next, env`files, this`pageImages, this`tempFilesToDelete
      ensures var t := TransferImage(env.script, old(env.next));
        && result == t.0 && env.next == t.1
        && env.files == old(env.files) + (if t.2.Some? then {t.2.value} else {})
        && pageImages == old(pageImages) + (if t.0.Scanned? then [t.0.path] else [])
        && tempFilesToDelete == old(tempFilesToDelete) + (if t.0.Scanned? then [t.0.path] else [])
    {
      if env.next >= |env.script| {
        return Raised(FeederEmpty);
      }
      var transfer := env.script[env.next];
      env.next := env.next + 1;
      match transfer
      case TransferFailed(ex) =>
        return Raised(ex);
      case Transferred(tempPath, saveFault, loadFault) =>
        if saveFault.Some? {
          return Raised(saveFault.value);
        }
        env.files := env.files + {tempPath};
        if loadFault.Some? {
          return Raised(loadFault.value);
        }
        pageImages := pageImages + [tempPath];
        tempFilesToDelete := tempFilesToDelete + [tempPath];
        return Scanned(tempPath);
    }

    /** The loop over a device manager's list; without a `break`, the last entry with the selected id wins. */
    method FindDevice(infos: seq<DeviceInfo>) returns (deviceInfo: Option<DeviceInfo>)
      ensures deviceInfo == LastDeviceWithId(infos, deviceId)
    {
      deviceInfo := None;
      var i := 0;
      while i < |infos|
        invariant 0 <= i <= |infos|
        invariant deviceInfo == LastDeviceWithId(infos[..i], deviceId)
      {
        if infos[i].deviceId == deviceId {
          deviceInfo := Some(infos[i]);
        }
        assert infos[..i + 1][..i] == infos[..i];
        i := i + 1;
      }
      assert infos[..i] == infos;
    }

    /**
     * `ScanOne`: one call creates the next device manager and, against the
     * devices it lists, behaves as the capture model's `ScanOne` step says:
     * its result, `_lastItem`, the position in the transfer script, the
     * image file left on disk, and the thumbnail and deletion lists, which
     * grow by the scanned image only.
     */
    method ScanOne(env: Environment) returns (result: ScanResult)
      modifies this`lastItem, this`pageImages, this`tempFilesToDelete, env`managers, env`next, env`files
      ensures var step := Capture.ScanOne(DevicesAt(env.devices, old(env.managers)), old(deviceId), old(adf), old(width), old(height), env.script, old(env.next));
        && result == step.result
        && env.managers == old(env.managers) + 1
        && lastItem == Latest(step, old(lastItem))
        && env.next == step.next
        && env.files == old(env.files) + SavedBy(step)
        && pageImages == old(pageImages) + (if result.Scanned? then [result.path] else [])
        && tempFilesToDelete == old(tempFilesToDelete) + (if result.Scanned? then [result.path] else [])
    {
      var infos := env.DeviceInfos();
      var deviceInfo := FindDevice(infos);
      result := ScanDevice(env, infos, deviceInfo);
    }

    /**
     * The rest of `ScanOne` once the device list `infos` has been searched
     * and `deviceInfo` found: connect, negotiate, transfer, and catch the
     * paper-empty error.
     */
    method ScanDevice(env: Environment, ghost infos: seq<DeviceInfo>, deviceInfo: Option<DeviceInfo>) returns (result: ScanResult)
      requires deviceInfo == LastDeviceWithId(infos, deviceId)
      modifies this`lastItem, this`pageImages, this`tempFilesToDelete, env`next, env`files
      ensures var step := Capture.ScanOne(infos, old(deviceId), old(adf), old(width), old(height), env.script, old(env.next));
        && result == step.result
        && lastItem == Latest(step, old(lastItem))
        && env.next == step.next
        && env.files == old(env.files) + SavedBy(step)
        && pageImages == old(pageImages) + (if result.Scanned? then [result.path] else [])
        && tempFilesToDelete == old(tempFilesToDelete) + (if result.Scanned? then [result.path] else [])
    {
      ghost var next := env.next;
      if deviceInfo.None? {
        ScanOneWithoutDevice(infos, deviceId, adf, width, height, env.script, next);
        return NoPage;
      }
      match deviceInfo.value.connection {
        case Refused(ex) =>
          ScanOneRefused(infos, deviceId, adf, width, height, env.script, next);
          result := Raised(ex);
        case Connected(deviceProperties, itemProperties) =>
          var device := new PropertyBag(deviceProperties);
          var item := new PropertyBag(itemProperties);
          var agreement := NegotiateWith(device, item);
          match agreement {
            case Refusal(ex) =>
              ScanOneNegotiationFails(infos, deviceId, adf, width, height, env.script, next);
              result := Raised(ex);
            case Mismatch =>
              ScanOneMismatch(infos, deviceId, adf, width, height, env.script, next);
              result := NoPage;
            case Ready =>
              ScanOneWhenReady(infos, deviceId, adf, width, height, env.script, next);
              result := TransferPage(env);
          }
      }
      // catch (COMException): the empty feeder ends the scan quietly
      if result.Raised? && IsPaperEmpty(result.error) {
        result := NoPage;
      }
    }

    // -------------------------------------------------------------------------
    // Scanner selection and the scan click

    /** `SelectDevice`: the dialog's choice becomes the scanner; a failure is logged and shown. Succeeds when a scanner is selected. */
    method SelectDevice(selection: Selection) returns (ok: bool)
      modifies this`deviceId, this`logged, this`notices
      ensures deviceId == SelectedDevice(old(deviceId), selection)
      ensures logged == old(logged) + SelectionLog(selection)
      ensures notices == old(notices) + SelectionNotices(selection)
      ensures ok <==> deviceId != ""
    {
      match selection {
        case Chosen(id) =>
          deviceId := id;
        case SelectionFailed(e) =>
          logged := logged + [LogRecord("Failed to select scanner", e)];
          notices := notices + [SelectionFailureBox(e)];
      }
      ok := deviceId != "";
    }

    /**
     * The `while` loop of the scan click: every image `ScanOne` delivers
     * becomes a page of the click's size, the document is marked unsaved,
     * and with the feeder off the loop stops after one page. The pages, the
     * thumbnails and the transfers consumed are those of the capture model's
     * run; an exception that escapes is returned.
     */
    method ScanLoop(env: Environment, ghost run: Run) returns (raised: Option<Exception>)
      requires Valid() && doc.Some?
      requires run == ScanRun(Click(env.devices, deviceId, adf, width, height, env.script), env.managers, env.next, lastItem)
      modifies this`doc, this`docSaved, this`pageImages, this`tempFilesToDelete, this`lastItem
      modifies this`saveEnabled, this`clearEnabled, this`windowTitle, env`managers, env`next, env`files
      ensures Valid() && doc.Some? && doc.value.info == old(doc.value.info)
      ensures && Pages() == AddImages(old(Pages()), run.images, width, height)
        && lastItem == run.lastItem && env.managers == run.managers && env.next == run.next
        && env.files == old(env.files) + run.saved
        && raised == (if run.end.Failed? then Some(run.end.error) else None)
    {
      ghost var c := Click(env.devices, deviceId, adf, width, height, env.script);
      raised := RunLoop(env, c, Pages(), doc.value.info, env.files, run);
    }

    method RunLoop(env: Environment, ghost c: Click, ghost start: PageState, ghost info: DocumentInfo,
                   ghost files: set<string>, ghost run: Run)
      returns (raised: Option<Exception>)
      requires Scanning(env, c, start, info, files, [], {}, run)
      modifies this`doc, this`docSaved, this`pageImages, this`tempFilesToDelete, this`lastItem
      modifies this`saveEnabled, this`clearEnabled, this`windowTitle, env`managers, env`next, env`files
      ensures Finished(env, c, start, info, files, run) == true
      ensures raised == (if run.end.Failed? then Some(run.end.error) else None)
    {
      ghost var done: seq<string> := [];
      ghost var saved: set<string> := {};
      while true
        invariant Scanning(env, c, start, info, files, done, saved, run) == true
        decreases |env.script| - env.next
      {
        var result;
        result, done, saved := ScanPass(env, c, start, info, files, done, saved, run);
        if !result.Scanned? {
          return if result.Raised? then Some(result.error) else None;
        }
        if !adf {
          return None;
        }
        UpdateState();
      }
    }

    /**
     * Where the scan loop stands: the click `c` matches the window's
     * settings and the machine, `done` has been scanned onto the pages and
     * `saved` left on disk, and the rest of the run is still to come from the
     * next device manager and transfer.
     */
    ghost predicate Scanning(env: Environment, c: Click, start: PageState, info: DocumentInfo, files: set<string>,
                             done: seq<string>, saved: set<string>, run: Run)
      reads this`doc, this`docSaved, this`pageImages, this`tempFilesToDelete, this`lastItem
      reads this`deviceId, this`adf, this`width, this`height, env`managers, env`next, env`files
    {
      && Valid() && doc.Some? && doc.value.info == info
      && deviceId == c.deviceId && adf == c.adf && width == c.width && height == c.height
      && env.devices == c.devices && env.script == c.script
      && run == Resume(done, saved, RunFrom(Preparations(c), c.adf, c.script, env.managers, env.next, lastItem))
      && Pages() == AddImages(start, done, c.width, c.height)
      && env.files == files + saved
    }

    /** Where the scan loop ends: the pages, the thumbnails, the device managers and the transfers consumed are those of `run`. */
    ghost predicate Finished(env: Environment, c: Click, start: PageState, info: DocumentInfo, files: set<string>, run: Run)
      reads this`doc, this`docSaved, this`pageImages, this`tempFilesToDelete, this`lastItem, env`managers, env`next, env`files
    {
      && Valid() && doc.Some? && doc.value.info == info
      && Pages() == AddImages(start, run.images, c.width, c.height)
      && lastItem == run.lastItem && env.managers == run.managers && env.next == run.next
      && env.files == files + run.saved
    }

    /** One pass of the scan loop up to its `break` tests, in terms of the run still to come. */
    method ScanPass(env: Environment, ghost c: Click, ghost start: PageState, ghost info: DocumentInfo, ghost files: set<string>,
                    ghost done: seq<string>, ghost saved: set<string>, ghost run: Run)
      returns (result: ScanResult, ghost done': seq<string>, ghost saved': set<string>)
      requires Scanning(env, c, start, info, files, done, saved, run)
      modifies this`doc, this`docSaved, this`pageImages, this`tempFilesToDelete, this`lastItem
      modifies env`managers, env`next, env`files
      ensures result.Scanned? ==> old(env.next) < |env.script| && env.next == old(env.next) + 1
      ensures result.Scanned? && c.adf ==> Scanning(env, c, start, info, files, done', saved', run)
      ensures !(result.Scanned? && c.adf) ==> Finished(env, c, start, info, files, run) && run.end == EndOf(result)
    {
      LoopStep(Preparations(c), c.adf, c.script, env.managers, env.next, lastItem, done, saved, run);
      assert Preparations(c)(env.managers) == PreparationAt(c, env.managers);
      ghost var step := Attempt(PreparationAt(c, env.managers), c.script, env.next);
      result := ScanNext(env, c, start, done);
      done', saved' := done + Delivered(result), saved + SavedBy(step);
    }

    /**
     * One pass of the scan loop's body before its `break` test: `ScanOne`
     * with the next device manager, and for an image a new page of the
     * click's size showing it, with the document marked unsaved. The
     * click's scanner, feeder setting and size are those of `c`; the pages
     * so far are `start` with the images `done` added.
     */
    method ScanNext(env: Environment, ghost c: Click, ghost start: PageState, ghost done: seq<string>) returns (result: ScanResult)
      requires deviceId == c.deviceId && adf == c.adf && width == c.width && height == c.height
      requires env.devices == c.devices && env.script == c.script
      requires Valid() && doc.Some? && Pages() == AddImages(start, done, c.width, c.height)
      modifies this`doc, this`docSaved, this`pageImages, this`tempFilesToDelete, this`lastItem
      modifies env`managers, env`next, env`files
      ensures Valid() && doc.Some? && doc.value.info == old(doc.value.info)
      ensures var step := Attempt(PreparationAt(c, old(env.managers)), c.script, old(env.next));
        && result == step.result
        && Pages() == AddImages(start, done + Delivered(result), c.width, c.height)
        && lastItem == Latest(step, old(lastItem))
        && env.managers == old(env.managers) + 1 && env.next == step.next
        && env.files == old(env.files) + SavedBy(step)
    {
      ghost var before := Pages();
      result := ScanOne(env);
      if result.Scanned? {
        AddPage(result.path);
        AddOneImage(before, result.path, c.width, c.height);
      } else {
        AddNoImages(before, c.width, c.height);
        assert Pages() == AddImages(before, [], c.width, c.height);
      }
      AddImagesTwice(start, done, Delivered(result), c.width, c.height);
    }

    /** The body of the scan loop for one image: a page of the click's size showing it, and the document needs saving. */
    method AddPage(path: string)
      requires doc.Some? && ImagesOf(doc.value.pages) + [path] == pageImages
      modifies this`doc, this`docSaved
      ensures Valid() && doc.Some? && doc.value.info == old(doc.value.info)
      ensures doc.value.pages == old(doc.value.pages) + [Page(width, height, path)] && !docSaved
    {
      ImagesOfAppend(doc.value.pages, Page(width, height, path));
      doc := Some(doc.value.(pages := doc.value.pages + [Page(width, height, path)]));
      docSaved := false;
    }

    /**
     * The `try` block of the scan click: the width and height boxes are read
     * in that order (a box that is not a number throws before anything is
     * scanned, leaving the width read so far), the feeder box is read, and
     * the loop runs; an exception is logged and shown with the last property
     * write; finally the buttons and caption are brought up to date.
     */
    method ScanPages(env: Environment)
      requires Valid() && doc.Some?
      modifies this`width, this`height, this`adf, this`doc, this`docSaved, this`pageImages, this`tempFilesToDelete
      modifies this`lastItem, this`logged, this`notices, this`saveEnabled, this`clearEnabled, this`windowTitle
      modifies env`managers, env`next, env`files
      ensures ScanEffects(env, old(logged), old(notices))
    {
      if widthText.Some? && heightText.Some? {
        ScanSized(env, widthText.value, heightText.value, adfChecked);
      } else {
        RejectSize(widthText);
      }
    }

    /**
     * The state after a scan loop at the click's size, from a document with
     * metadata `info` and pages `pagesBefore`, `managersBefore` device
     * managers created and the transfer script at `nextBefore`, the last item `lastBefore`, the files `filesBefore` and
     * the log and shown boxes `logBefore` and `noticesBefore`: the document
     * gains one page per image of the capture model's run, in order, and a
     * failure that ends the run is logged and shown once.
     */
    ghost predicate ScanOutcome(env: Environment, info: DocumentInfo, pagesBefore: PageState, managersBefore: nat,
                                nextBefore: nat, lastBefore: Option<string>, filesBefore: set<string>,
                                logBefore: seq<LogRecord>, noticesBefore: seq<Notice>)
      reads this`doc, this`docSaved, this`pageImages, this`tempFilesToDelete, this`lastItem, this`logged, this`notices
      reads this`deviceId, this`adf, this`width, this`height, env`managers, env`next, env`files
    {
      && Valid() && doc.Some? && doc.value.info == info
      && var run := ScanRun(Click(env.devices, deviceId, adf, width, height, env.script), managersBefore, nextBefore, lastBefore);
      && Pages() == AddImages(pagesBefore, run.images, width, height)
      && lastItem == run.lastItem && env.managers == run.managers && env.next == run.next
      && env.files == filesBefore + run.saved
      && logged == logBefore + (if run.end.Failed? then [LogRecord("Failed to scan page", run.end.error)] else [])
      && notices == noticesBefore + (if run.end.Failed? then [ScanFailureBox(run.end.error, run.lastItem)] else [])
    }

    /** The scan loop at the size just read, and the report of the failure that ends it, if any. */
    method ScanSized(env: Environment, w: int, h: int, feeder: bool)
      requires Valid() && doc.Some?
      modifies this`width, this`height, this`adf, this`doc, this`docSaved, this`pageImages, this`tempFilesToDelete, this`lastItem
      modifies this`logged, this`notices, this`saveEnabled, this`clearEnabled, this`windowTitle
      modifies env`managers, env`next, env`files
      ensures width == w && height == h && adf == feeder
      ensures ScanOutcome(env, old(doc.value.info), old(Pages()), old(env.managers), old(env.next), old(lastItem), old(env.files), old(logged), old(notices)) == true
      ensures saveEnabled == clearEnabled == (PageCount() > 0)
      ensures windowTitle == TitleText(versionString, PageCount())
    {
      width, height, adf := w, h, feeder;
      ScanAndReport(env);
      UpdateState();
    }

    /** The scan loop, and the report of the failure that ends it, if any. */
    method ScanAndReport(env: Environment)
      requires Valid() && doc.Some?
      modifies this`doc, this`docSaved, this`pageImages, this`tempFilesToDelete, this`lastItem
      modifies this`logged, this`notices, this`saveEnabled, this`clearEnabled, this`windowTitle
      modifies env`managers, env`next, env`files
      ensures ScanOutcome(env, old(doc.value.info), old(Pages()), old(env.managers), old(env.next), old(lastItem), old(env.files), old(logged), old(notices))
    {
      ghost var run := ScanRun(Click(env.devices, deviceId, adf, width, height, env.script), env.managers, env.next, lastItem);
      var raised := ScanLoop(env, run);
      if raised.Some? {
        ReportScanFailure(raised.value);
      }
    }

    /** The `catch` block of the scan click. */
    method RejectSize(readWidth: Option<int>)
      modifies this`width, this`logged, this`notices, this`saveEnabled, this`clearEnabled, this`windowTitle
      ensures width == readWidth.GetOr(old(width))
      ensures logged == old(logged) + [LogRecord("Failed to scan page", FormatError)]
      ensures notices == old(notices) + [ScanFailureBox(FormatError, lastItem)]
      ensures saveEnabled == clearEnabled == (PageCount() > 0)
      ensures windowTitle == TitleText(versionString, PageCount())
    {
      if readWidth.Some? {
        width := readWidth.value;
      }
      ReportScanFailure(FormatError);
      UpdateState();
    }

    method ReportScanFailure(ex: Exception)
      modifies this`logged, this`notices
      ensures logged == old(logged) + [LogRecord("Failed to scan page", ex)]
      ensures notices == old(notices) + [ScanFailureBox(ex, lastItem)]
    {
      logged := logged + [LogRecord("Failed to scan page", ex)];
      notices := notices + [ScanFailureBox(ex, lastItem)];
    }

    /**
     * What a scan click does once a scanner is selected, the log and the
     * shown boxes having been `logBefore` and `noticesBefore` when the
     * `try` block began: the size boxes are read into the click's size; an
     * unreadable box adds one failure report and changes nothing else; with
     * both readable, the document gains one page per image of the capture
     * model's run, in order, and a failure that ends the run is reported;
     * the buttons and caption follow the page count.
     */
    twostate predicate ScanEffects(env: Environment, logBefore: seq<LogRecord>, noticesBefore: seq<Notice>)
      reads this, env
    {
      && Valid() && doc.Some? && old(doc).Some? && doc.value.info == old(doc.value.info)
      && width == old(widthText).GetOr(old(width))
      && height == (if old(widthText).Some? then old(heightText).GetOr(old(height)) else old(height))
      && adf == (if old(widthText).Some? && old(heightText).Some? then old(adfChecked) else old(adf))
      && (old(widthText).None? || old(heightText).None? ==>
            && doc == old(doc) && docSaved == old(docSaved)
            && pageImages == old(pageImages) && tempFilesToDelete == old(tempFilesToDelete)
            && lastItem == old(lastItem) && env.managers == old(env.managers) && env.next == old(env.next)
            && env.files == old(env.files)
            && logged == logBefore + [LogRecord("Failed to scan page", FormatError)]
            && notices == noticesBefore + [ScanFailureBox(FormatError, lastItem)])
      && (old(widthText).Some? && old(heightText).Some? ==>
            ScanOutcome(env, old(doc.value.info), old(Pages()), old(env.managers), old(env.next), old(lastItem), old(env.files), logBefore, noticesBefore))
      && saveEnabled == clearEnabled == (PageCount() > 0)
      && windowTitle == TitleText(versionString, PageCount())
    }

    /**
     * `buttonScanPages_Click`: without a selected scanner the selection
     * dialog runs first, and the click ends there when it selects none;
     * otherwise the scan goes as `ScanEffects` says, after whatever the
     * selection logged and showed.
     */
    method ScanPagesClick(env: Environment, selection: Selection)
      requires Valid() && doc.Some?
      modifies this`deviceId, this`width, this`height, this`adf, this`doc, this`docSaved, this`pageImages
      modifies this`tempFilesToDelete, this`lastItem, this`logged, this`notices
      modifies this`saveEnabled, this`clearEnabled, this`windowTitle, env`managers, env`next, env`files
      ensures old(deviceId) != "" ==> deviceId == old(deviceId) && ScanEffects(env, old(logged), old(notices))
      ensures old(deviceId) == "" ==> deviceId == SelectedDevice("", selection)
      ensures old(deviceId) == "" && deviceId == "" ==>
        && logged == old(logged) + SelectionLog(selection) && notices == old(notices) + SelectionNotices(selection)
        && doc == old(doc) && pageImages == old(pageImages) && env.managers == old(env.managers) && env.next == old(env.next)
      ensures old(deviceId) == "" && deviceId != "" ==>
        ScanEffects(env, old(logged) + SelectionLog(selection), old(notices) + SelectionNotices(selection))
    {
      if deviceId == "" {
        var ok := SelectDevice(selection);
        if !ok {
          return;
        }
      }
      ScanPages(env);
    }

    // -------------------------------------------------------------------------
    // Save, clear and close

    /**
     * `buttonSave_Click`: the dialog suggests the sanitised title, and a path
     * the user picks (`chosen`) is saved to as `SaveTo` says; cancelling
     * changes nothing. `closeOnSave` is the setting, `writeFault` what
     * writing the file throws.
     */
    method SaveClick(closeOnSave: bool, chosen: Option<string>, writeFault: Option<Exception>) returns (suggested: Option<string>)
      requires Valid() && doc.Some?
      modifies this`doc, this`docSaved, this`titleText, this`subjectText, this`authorText, this`keywordsText
      modifies this`pageImages, this`saveEnabled, this`clearEnabled, this`windowTitle
      modifies this`savedPdfs, this`closeRequested, this`logged, this`notices
      ensures suggested == SuggestedFileName(old(titleText))
      ensures chosen.None? ==> unchanged(this)
      ensures chosen.Some? ==> SaveEffects(closeOnSave, chosen.value, writeFault)
    {
      suggested := None;
      if |titleText| > 0 {
        var name := FileNameFromTitle(titleText);
        suggested := Some(name);
      }
      if chosen.Some? {
        SaveTo(closeOnSave, chosen.value, writeFault);
      }
    }

    /**
     * The body of `buttonSave_Click` once a path is picked: the trimmed
     * metadata and the creator go into the document and it is written to
     * `path`. A write that throws is logged and shown and leaves the
     * document unsaved; a write that succeeds marks it saved, then the window
     * asks to close or starts a new document.
     */
    method SaveTo(closeOnSave: bool, path: string, writeFault: Option<Exception>)
      requires Valid() && doc.Some?
      modifies this`doc, this`docSaved, this`titleText, this`subjectText, this`authorText, this`keywordsText
      modifies this`pageImages, this`saveEnabled, this`clearEnabled, this`windowTitle
      modifies this`savedPdfs, this`closeRequested, this`logged, this`notices
      ensures SaveEffects(closeOnSave, path, writeFault)
    {
      var info := SavedInfo(titleText, authorText, subjectText, keywordsText);
      doc := Some(doc.value.(info := info));
      if writeFault.Some? {
        logged := logged + [LogRecord("Failed to save PDF", writeFault.value)];
        notices := notices + [SaveFailureBox(writeFault.value)];
        return;
      }
      savedPdfs := savedPdfs[path := doc.value];
      docSaved := true;
      if closeOnSave {
        closeRequested := true;
      } else {
        ResetState();
      }
    }

    /** What saving to `path` did: see `SaveTo`. */
    twostate predicate SaveEffects(closeOnSave: bool, path: string, writeFault: Option<Exception>)
      requires old(doc).Some?
      reads this
    {
      var saved := Document(old(doc.value.pages), SavedInfo(old(titleText), old(authorText), old(subjectText), old(keywordsText)));
      && Valid() && doc.Some?
      && (writeFault.Some? || closeOnSave ==>
            && pageImages == old(pageImages) && MetadataBoxes() == old(MetadataBoxes())
            && saveEnabled == old(saveEnabled) && clearEnabled == old(clearEnabled) && windowTitle == old(windowTitle))
      && (writeFault.Some? ==>
            && doc == Some(saved) && docSaved == old(docSaved) && savedPdfs == old(savedPdfs)
            && closeRequested == old(closeRequested)
            && logged == old(logged) + [LogRecord("Failed to save PDF", writeFault.value)]
            && notices == old(notices) + [SaveFailureBox(writeFault.value)])
      && (writeFault.None? ==>
            && docSaved && savedPdfs == old(savedPdfs)[path := saved]
            && logged == old(logged) && notices == old(notices))
      && (writeFault.None? && closeOnSave ==> closeRequested && doc == Some(saved))
      && (writeFault.None? && !closeOnSave ==>
            && doc == Some(NewDocument) && pageImages == [] && closeRequested == old(closeRequested)
            && MetadataBoxes() == ["", "", "", ""]
            && !saveEnabled && !clearEnabled && windowTitle == TitleText(versionString, 0))
    }

    /** Shows `question` and answers whether the user's `actions` pressed Yes. */
    method Ask(question: Notice, actions: seq<MessageBoxes.UserAction>) returns (yes: bool)
      modifies this`notices
      ensures notices == old(notices) + [question]
      ensures yes == (MessageBoxes.DialogResult(question.BoxType(), actions) == MessageBoxes.Yes)
    {
      notices := notices + [question];
      yes := MessageBoxes.DialogResult(question.BoxType(), actions) == MessageBoxes.Yes;
    }

    /**
     * `buttonClear_Click`: a saved document is left alone; otherwise the
     * window asks, and starts a new document only on Yes.
     */
    method ClearClick(actions: seq<MessageBoxes.UserAction>)
      requires Valid()
      modifies this`doc, this`docSaved, this`titleText, this`subjectText, this`authorText, this`keywordsText
      modifies this`pageImages, this`saveEnabled, this`clearEnabled, this`windowTitle, this`notices
      ensures Valid()
      ensures old(docSaved) ==> unchanged(this)
      ensures !old(docSaved) ==> notices == old(notices) + [ClearQuestion]
      ensures !old(docSaved) && MessageBoxes.DialogResult(MessageBoxes.YesNoBox, actions) == MessageBoxes.Yes ==>
        && doc == Some(NewDocument) && docSaved && pageImages == []
        && titleText == subjectText == authorText == keywordsText == ""
        && !saveEnabled && !clearEnabled && windowTitle == TitleText(versionString, 0)
      ensures !old(docSaved) && MessageBoxes.DialogResult(MessageBoxes.YesNoBox, actions) != MessageBoxes.Yes ==>
        && doc == old(doc) && !docSaved && pageImages == old(pageImages)
        && titleText == old(titleText) && subjectText == old(subjectText)
        && authorText == old(authorText) && keywordsText == old(keywordsText)
        && saveEnabled == old(saveEnabled) && clearEnabled == old(clearEnabled) && windowTitle == old(windowTitle)
    {
      if !docSaved {
        var yes := Ask(ClearQuestion, actions);
        if yes {
          ResetState();
        }
      }
    }

    /** `Window_Closing`: an unsaved document makes the window ask, and closing is cancelled unless the answer is Yes. */
    method WindowClosing(actions: seq<MessageBoxes.UserAction>) returns (cancel: bool)
      modifies this`notices
      ensures docSaved ==> !cancel && notices == old(notices)
      ensures !docSaved ==>
        && notices == old(notices) + [ExitQuestion]
        && cancel == (MessageBoxes.DialogResult(MessageBoxes.YesNoBox, actions) != MessageBoxes.Yes)
    {
      cancel := false;
      if !docSaved {
        var yes := Ask(ExitQuestion, actions);
        cancel := !yes;
      }
    }

    /**
     * `Window_Closed`: every temporary file that still exists is deleted; a
     * file the system refuses to delete (one in `env.locked`) stays, silently.
     */
    method WindowClosed(env: Environment)
      modifies env`files
      ensures env.files == old(env.files) - (set f | f in tempFilesToDelete && f !in env.locked)
    {
      var i := 0;
      while i < |tempFilesToDelete|
        invariant 0 <= i <= |tempFilesToDelete|
        invariant env.files == old(env.files) - (set f | f in tempFilesToDelete[..i] && f !in env.locked)
      {
        var file := tempFilesToDelete[i];
        assert tempFilesToDelete[..i + 1] == tempFilesToDelete[..i] + [file];
        if file in env.files && file !in env.locked {
          env.files := env.files - {file};
        }
        i := i + 1;
      }
      assert tempFilesToDelete[..i] == tempFilesToDelete;
    }

    /**
     * `Window_Loaded`: the caption's version text, the catalogue of sizes with
     * the one named by the saved setting selected (Letter when none is), and
     * a new document.
     */
    method WindowLoaded(major: nat, minor: nat, build: nat, savedSize: string)
      requires Valid()
      modifies this`versionString, this`sizes, this`selectedSize
      modifies this`doc, this`docSaved, this`titleText, this`subjectText, this`authorText, this`keywordsText
      modifies this`pageImages, this`saveEnabled, this`clearEnabled, this`windowTitle
      ensures Valid() && doc == Some(NewDocument) && docSaved && pageImages == []
      ensures versionString == VersionString(major, minor, build)
      ensures sizes == GetSizes().0 && selectedSize == Some(FindSize(GetSizes().0, savedSize, GetSizes().1))
      ensures titleText == subjectText == authorText == keywordsText == ""
      ensures !saveEnabled && !clearEnabled && windowTitle == TitleText(VersionString(major, minor, build), 0)
    {
      versionString := VersionString(major, minor, build);
      var (catalogue, default) := GetSizes();
      sizes := catalogue;
      var selected := SelectSize(catalogue, savedSize, default);
      selectedSize := Some(selected);
      ResetState();
    }

  }
}
