/**
 * PdfScan's own settings (`UserSettings`): the run count, the paper size
 * last chosen, and the close-on-save, upgraded and document-feeder flags,
 * kept beside the shared Catfood settings. The product writes its five
 * elements after the base ones and reads back the elements the base
 * settings hand on.
 */
module PdfScanSettings {
  import opened Wrappers
  import opened Text
  import opened Exceptions
  import opened CatfoodSettings

  // ---------------------------------------------------------------------------
  // The settings and their setters

  /** The five product settings. The paper size is a nullable string. */
  datatype UserState = UserState(
    initialRunCount: Int32,
    selectedPaperSize: Option<string>,
    closeOnSave: bool,
    settingsUpgraded: bool,
    useAdf: bool)

  /** The values `ResetSettings` assigns. */
  const UserDefaults: UserState := UserState(0, Some("Letter"), true, false, true)

  /** An assignment to one property's setter. */
  datatype UserSetting =
    | InitialRunCount(count: Int32)
    | SelectedPaperSize(size: Option<string>)
    | CloseOnSave(flag: bool)
    | SettingsUpgraded(flag: bool)
    | UseAdf(flag: bool)
  {
    /** The property name the setter notifies. */
    function Name(): string {
      match this
      case InitialRunCount(_) => "InitialRunCount"
      case SelectedPaperSize(_) => "SelectedPaperSize"
      case CloseOnSave(_) => "CloseOnSave"
      case SettingsUpgraded(_) => "SettingsUpgraded"
      case UseAdf(_) => "UseAdf"
    }
  }

  /** The settings with the setting's property holding its value. */
  function WithUser(u: UserState, setting: UserSetting): UserState {
    match setting
    case InitialRunCount(n) => u.(initialRunCount := n)
    case SelectedPaperSize(p) => u.(selectedPaperSize := p)
    case CloseOnSave(b) => u.(closeOnSave := b)
    case SettingsUpgraded(b) => u.(settingsUpgraded := b)
    case UseAdf(b) => u.(useAdf := b)
  }

  /** What the product settings show: the values and the change notifications raised, in order. */
  datatype UserSnapshot = UserSnapshot(state: UserState, changed: seq<string>)

  /** A property setter: a value that differs is stored and notified; an equal one changes nothing. */
  function UserApplied(x: UserSnapshot, setting: UserSetting): UserSnapshot {
    var u := WithUser(x.state, setting);
    if u == x.state then x else UserSnapshot(u, x.changed + [setting.Name()])
  }

  /** A setter notifies exactly when the value changes, then with its own name, and setting the same value again does nothing. */
  lemma UserAppliedNotifiesChange(x: UserSnapshot, setting: UserSetting)
    ensures var y := UserApplied(x, setting);
      && (y.changed == x.changed <==> WithUser(x.state, setting) == x.state)
      && (y.changed != x.changed ==> y.changed == x.changed + [setting.Name()])
      && UserApplied(y, setting) == y
  {
    var y := UserApplied(x, setting);
    if WithUser(x.state, setting) != x.state {
      assert |y.changed| == |x.changed| + 1;
    }
  }

  /** The number of runs the main window counts before it stops counting. */
  const FreeRunCount: int := 10

  /** The main window's constructor counting a run: the count goes up by one while it is below `FreeRunCount`. */
  function CountedRun(x: UserSnapshot): UserSnapshot {
    if x.state.initialRunCount < FreeRunCount then UserApplied(x, InitialRunCount(x.state.initialRunCount + 1)) else x
  }

  /** Counting a run raises the count by one, up to `FreeRunCount`, notifying it, and touches nothing else; the count never passes `FreeRunCount` by counting. */
  lemma CountedRunCapped(x: UserSnapshot)
    ensures var y := CountedRun(x);
      && y.state == x.state.(initialRunCount := if x.state.initialRunCount < FreeRunCount then x.state.initialRunCount + 1 else x.state.initialRunCount)
      && (x.state.initialRunCount < FreeRunCount ==> y.changed == x.changed + ["InitialRunCount"] && y.state.initialRunCount <= FreeRunCount)
      && (x.state.initialRunCount >= FreeRunCount ==> y == x)
  {
  }

  // ---------------------------------------------------------------------------
  // The product's elements of the settings file

  /** The elements holding the product settings. */
  datatype UserElement =
    | ElementSettingsUpgraded
    | ElementCloseOnSave
    | ElementInitialRunCount
    | ElementUseAdf
    | ElementSelectedPaperSize

  /** The element's name in the file. */
  function UserElementName(b: UserElement): string {
    match b
    case ElementSettingsUpgraded => "SettingsUpgraded"
    case ElementCloseOnSave => "CloseOnSave"
    case ElementInitialRunCount => "InitialRunCount"
    case ElementUseAdf => "UseAdf"
    case ElementSelectedPaperSize => "SelectedPaperSize"
  }

  /** The product setting an element name stands for, if any. */
  function UserElementOf(name: string): Option<UserElement> {
    if name == "CloseOnSave" then Some(ElementCloseOnSave)
    else if name == "InitialRunCount" then Some(ElementInitialRunCount)
    else if name == "SelectedPaperSize" then Some(ElementSelectedPaperSize)
    else if name == "SettingsUpgraded" then Some(ElementSettingsUpgraded)
    else if name == "UseAdf" then Some(ElementUseAdf)
    else None
  }

  lemma UserElementOfName(b: UserElement)
    ensures UserElementOf(UserElementName(b)) == Some(b)
  {
  }

  /** What the `try` block of `LoadFromXmlElement`'s case assigns; `None` when it throws or the name is not a product setting's. */
  function ReadUserValue(e: Element): Option<UserSetting> {
    var t := e.text;
    match UserElementOf(e.name)
    case None => None
    case Some(ElementCloseOnSave) =>
      (match ParseBool(t) case Some(b) => Some(CloseOnSave(b)) case None => None)
    case Some(ElementInitialRunCount) =>
      (match ParseInt32(t) case Some(n) => Some(InitialRunCount(n)) case None => None)
    case Some(ElementSelectedPaperSize) =>
      Some(SelectedPaperSize(Some(t)))
    case Some(ElementSettingsUpgraded) =>
      (match ParseBool(t) case Some(b) => Some(SettingsUpgraded(b)) case None => None)
    case Some(ElementUseAdf) =>
      (match ParseBool(t) case Some(b) => Some(UseAdf(b)) case None => None)
  }

  /** What the `catch` block of a case assigns; the paper size is read without one. */
  function UserFallback(b: UserElement): UserSetting
    requires !b.ElementSelectedPaperSize?
  {
    match b
    case ElementCloseOnSave => CloseOnSave(true)
    case ElementInitialRunCount => InitialRunCount(0)
    case ElementSettingsUpgraded => SettingsUpgraded(false)
    case ElementUseAdf => UseAdf(true)
  }

  /** `LoadFromXmlElement`: the setter it calls for an element, if any — the value read, or the fallback when reading throws. */
  function ParseUserElement(e: Element): (r: Option<UserSetting>)
    ensures r.Some? <==> UserElementOf(e.name).Some?
  {
    match ReadUserValue(e)
    case Some(setting) => Some(setting)
    case None =>
      match UserElementOf(e.name)
      case None => None
      case Some(b) => Some(UserFallback(b))
  }

  /** Each fallback is the value `ResetSettings` gives: an unreadable element leaves reset settings as they are. */
  lemma UserFallbacksAreDefaults(b: UserElement)
    requires !b.ElementSelectedPaperSize?
    ensures WithUser(UserDefaults, UserFallback(b)) == UserDefaults
  {
  }

  /** The paper size is taken as written, whatever its text: it is not checked against the catalogue. */
  lemma PaperSizeReadRaw(text: string)
    ensures ParseUserElement(Element("SelectedPaperSize", text)) == Some(SelectedPaperSize(Some(text)))
  {
  }

  /** One element handed to `LoadFromXmlElement`. */
  function ReadUserStep(x: UserSnapshot, e: Element): UserSnapshot {
    match ParseUserElement(e)
    case Some(setting) => UserApplied(x, setting)
    case None => x
  }

  /** An element whose name is not one of the five changes nothing. */
  lemma UnknownElementChangesNothing(x: UserSnapshot, e: Element)
    ensures UserElementOf(e.name).None? <==> (forall y :: ReadUserStep(y, e) == y)
  {
    if UserElementOf(e.name).Some? {
      var setting := ParseUserElement(e).value;
      var z := match setting
        case InitialRunCount(n) => x.(state := x.state.(initialRunCount := if n == 0 then 1 else 0))
        case SelectedPaperSize(p) => x.(state := x.state.(selectedPaperSize := if p.None? then Some("") else None))
        case CloseOnSave(b) => x.(state := x.state.(closeOnSave := !b))
        case SettingsUpgraded(b) => x.(state := x.state.(settingsUpgraded := !b))
        case UseAdf(b) => x.(state := x.state.(useAdf := !b));
      assert ReadUserStep(z, e) != z;
    }
  }

  /** The elements handed to `LoadFromXmlElement`, read in order. */
  function ReadUserAll(x: UserSnapshot, es: seq<Element>): UserSnapshot {
    if es == [] then x
    else ReadUserStep(ReadUserAll(x, es[..|es| - 1]), es[|es| - 1])
  }

  /** The text `SaveToXmlWriter` writes for a product setting; `None` for a null or empty paper size. */
  function UserSavedText(u: UserState, b: UserElement): (r: Option<string>)
    ensures r.Some? <==> !b.ElementSelectedPaperSize? || !IsNullOrEmpty(u.selectedPaperSize)
  {
    match b
    case ElementSettingsUpgraded => Some(BoolText(u.settingsUpgraded))
    case ElementCloseOnSave => Some(BoolText(u.closeOnSave))
    case ElementInitialRunCount => Some(IntToString(u.initialRunCount))
    case ElementUseAdf => Some(BoolText(u.useAdf))
    case ElementSelectedPaperSize => if IsNullOrEmpty(u.selectedPaperSize) then None else u.selectedPaperSize
  }

  /** The element written for a product setting, when one is. */
  function UserSavedElement(u: UserState, b: UserElement): seq<Element> {
    match UserSavedText(u, b)
    case Some(t) => [Element(UserElementName(b), t)]
    case None => []
  }

  /** The elements `SaveToXmlWriter` writes, in order: the three flags and the run count, then the paper size unless it is empty. */
  function UserElements(u: UserState): seq<Element> {
    UserSavedElement(u, ElementSettingsUpgraded) + UserSavedElement(u, ElementCloseOnSave)
      + UserSavedElement(u, ElementInitialRunCount) + UserSavedElement(u, ElementUseAdf)
      + UserSavedElement(u, ElementSelectedPaperSize)
  }

  /** The assignment reading an element back makes for `u`'s value. */
  function SavedSetting(u: UserState, b: UserElement): UserSetting {
    match b
    case ElementSettingsUpgraded => SettingsUpgraded(u.settingsUpgraded)
    case ElementCloseOnSave => CloseOnSave(u.closeOnSave)
    case ElementInitialRunCount => InitialRunCount(u.initialRunCount)
    case ElementUseAdf => UseAdf(u.useAdf)
    case ElementSelectedPaperSize => SelectedPaperSize(u.selectedPaperSize)
  }

  /** Reading back a written element assigns the value it was written from. */
  lemma ReadSavedUserElement(x: UserSnapshot, u: UserState, b: UserElement)
    requires UserSavedText(u, b).Some?
    ensures ReadUserStep(x, Element(UserElementName(b), UserSavedText(u, b).value)) == UserApplied(x, SavedSetting(u, b))
  {
    UserElementOfName(b);
    match b {
      case ElementInitialRunCount => ParseInt32OfIntToString(u.initialRunCount);
      case ElementSettingsUpgraded => ParseBoolOfBoolText(u.settingsUpgraded);
      case ElementCloseOnSave => ParseBoolOfBoolText(u.closeOnSave);
      case ElementUseAdf => ParseBoolOfBoolText(u.useAdf);
      case ElementSelectedPaperSize =>
    }
  }

  /** Reading one run of elements after another. */
  lemma ReadUserAllAppendOne(x: UserSnapshot, es: seq<Element>, e: Element)
    ensures ReadUserAll(x, es + [e]) == ReadUserStep(ReadUserAll(x, es), e)
  {
    assert (es + [e])[..|es|] == es;
  }

  /** The values after reading back a product setting's element, if one was written. */
  function ReadBack(v: UserState, u: UserState, b: UserElement): UserState {
    if UserSavedText(u, b).Some? then WithUser(v, SavedSetting(u, b)) else v
  }

  lemma ReadUserAllOfSaved(x: UserSnapshot, es: seq<Element>, u: UserState, b: UserElement)
    ensures ReadUserAll(x, es + UserSavedElement(u, b)).state == ReadBack(ReadUserAll(x, es).state, u, b)
  {
    if UserSavedText(u, b).Some? {
      ReadUserAllAppendOne(x, es, Element(UserElementName(b), UserSavedText(u, b).value));
      ReadSavedUserElement(ReadUserAll(x, es), u, b);
    } else {
      assert es + UserSavedElement(u, b) == es;
    }
  }

  /**
   * Round trip: reading back what `SaveToXmlWriter` wrote restores all
   * five values, from whatever the settings held before. An empty paper
   * size is not written, so the one held before stays.
   */
  lemma {:induction false} UserLoadOfSaved(x: UserSnapshot, u: UserState)
    ensures ReadUserAll(x, UserElements(u)).state ==
      if IsNullOrEmpty(u.selectedPaperSize) then u.(selectedPaperSize := x.state.selectedPaperSize) else u
  {
    var e1 := UserSavedElement(u, ElementSettingsUpgraded);
    var e2 := UserSavedElement(u, ElementCloseOnSave);
    var e3 := UserSavedElement(u, ElementInitialRunCount);
    var e4 := UserSavedElement(u, ElementUseAdf);
    assert e1 == [] + e1;
    ReadUserAllOfSaved(x, [], u, ElementSettingsUpgraded);
    ReadUserAllOfSaved(x, e1, u, ElementCloseOnSave);
    ReadUserAllOfSaved(x, e1 + e2, u, ElementInitialRunCount);
    ReadUserAllOfSaved(x, e1 + e2 + e3, u, ElementUseAdf);
    ReadUserAllOfSaved(x, e1 + e2 + e3 + e4, u, ElementSelectedPaperSize);
    ReadBackAll(x.state, u);
  }

  /** Reading back the four elements always written sets all but the paper size; the paper size's element sets it. */
  lemma ReadBackAll(v: UserState, u: UserState)
    ensures var w := ReadBack(ReadBack(ReadBack(ReadBack(v, u, ElementSettingsUpgraded), u, ElementCloseOnSave), u, ElementInitialRunCount), u, ElementUseAdf);
      && w == u.(selectedPaperSize := v.selectedPaperSize)
      && ReadBack(w, u, ElementSelectedPaperSize) == if IsNullOrEmpty(u.selectedPaperSize) then w else u
  {
  }

  /** `SaveToXmlWriter` writes no element `Load` reads itself, nor the root or declaration. */
  lemma UserElementsHandedOn(u: UserState)
    ensures Forwarded(UserElements(u)) == UserElements(u)
  {
    var e1 := UserSavedElement(u, ElementSettingsUpgraded);
    var e2 := UserSavedElement(u, ElementCloseOnSave);
    var e3 := UserSavedElement(u, ElementInitialRunCount);
    var e4 := UserSavedElement(u, ElementUseAdf);
    var e5 := UserSavedElement(u, ElementSelectedPaperSize);
    UserElementHandedOn(u, ElementSettingsUpgraded);
    UserElementHandedOn(u, ElementCloseOnSave);
    UserElementHandedOn(u, ElementInitialRunCount);
    UserElementHandedOn(u, ElementUseAdf);
    UserElementHandedOn(u, ElementSelectedPaperSize);
    ForwardedAppend(e1, e2);
    ForwardedAppend(e1 + e2, e3);
    ForwardedAppend(e1 + e2 + e3, e4);
    ForwardedAppend(e1 + e2 + e3 + e4, e5);
  }

  lemma UserElementHandedOn(u: UserState, b: UserElement)
    ensures Forwarded(UserSavedElement(u, b)) == UserSavedElement(u, b)
  {
    var es := UserSavedElement(u, b);
    if es != [] {
      assert es[..0] == [];
      BaseNameInitial(UserElementName(b));
    }
  }

  // ---------------------------------------------------------------------------
  // The settings object

  /**
   * `UserSettings`: the base settings it extends (held as `core`), its five
   * fields, and the notifications its own setters raise.
   */
  class UserSettings {
    const core: SettingsBase
    var state: UserState
    var changed: seq<string>

    function Snap(): UserSnapshot
      reads this
    {
      UserSnapshot(state, changed)
    }

    /** The private constructor: the base settings for "PdfScan", then `ResetSettings`. */
    constructor (crypto: Crypto, now: DateTime)
      ensures core.appName == "PdfScan" && core.crypto == crypto && fresh(core)
      ensures state == UserDefaults && changed == []
      ensures core.state == ResetState(now) && core.changed == [] && core.log == []
      ensures core.updateProxySettings && core.savedEvents == 0
    {
      core := new SettingsBase("PdfScan", crypto, now);
      state := UserDefaults;
      changed := [];
      new;
      ResetSettings(now);
    }

    /** A property setter. */
    method Set(setting: UserSetting)
      modifies this`state, this`changed
      ensures Snap() == UserApplied(old(Snap()), setting)
    {
      var next := WithUser(state, setting);
      if next != state {
        state := next;
        changed := changed + [setting.Name()];
      }
    }

    /** The run count bump in the main window's constructor. */
    method CountRun()
      modifies this`state, this`changed
      ensures Snap() == CountedRun(old(Snap()))
    {
      if state.initialRunCount < FreeRunCount {
        Set(InitialRunCount(state.initialRunCount + 1));
      }
    }

    /** `LoadFromXmlElement`: one element the base settings handed on. */
    method LoadFromXmlElement(e: Element)
      modifies this`state, this`changed
      ensures Snap() == ReadUserStep(old(Snap()), e)
    {
      match UserElementOf(e.name) {
        case Some(ElementCloseOnSave) =>
          match ParseBool(e.text) {
            case Some(b) => Set(CloseOnSave(b));
            case None => Set(CloseOnSave(true));
          }
        case Some(ElementInitialRunCount) =>
          match ParseInt32(e.text) {
            case Some(n) => Set(InitialRunCount(n));
            case None => Set(InitialRunCount(0));
          }
        case Some(ElementSelectedPaperSize) =>
          Set(SelectedPaperSize(Some(e.text)));
        case Some(ElementSettingsUpgraded) =>
          match ParseBool(e.text) {
            case Some(b) => Set(SettingsUpgraded(b));
            case None => Set(SettingsUpgraded(false));
          }
        case Some(ElementUseAdf) =>
          match ParseBool(e.text) {
            case Some(b) => Set(UseAdf(b));
            case None => Set(UseAdf(true));
          }
        case None =>
      }
    }

    /** The handed-on elements, each given to `LoadFromXmlElement` in order. */
    method ReadHandedOn(es: seq<Element>)
      modifies this`state, this`changed
      ensures Snap() == ReadUserAll(old(Snap()), es)
    {
      var i := 0;
      while i < |es|
        invariant 0 <= i <= |es|
        invariant Snap() == ReadUserAll(old(Snap()), es[..i])
      {
        ReadUserAllAppendOne(old(Snap()), es[..i], es[i]);
        assert es[..i + 1] == es[..i] + [es[i]];
        LoadFromXmlElement(es[i]);
        i := i + 1;
      }
      assert es[..i] == es;
    }

    /** `SaveToXmlWriter`: the product's elements, appended one after the other. */
    method SaveToXmlWriter() returns (elements: seq<Element>)
      ensures elements == UserElements(state)
    {
      elements := [];
      elements := elements + [Element("SettingsUpgraded", BoolText(state.settingsUpgraded))];
      elements := elements + [Element("CloseOnSave", BoolText(state.closeOnSave))];
      elements := elements + [Element("InitialRunCount", IntToString(state.initialRunCount))];
      elements := elements + [Element("UseAdf", BoolText(state.useAdf))];
      if !IsNullOrEmpty(state.selectedPaperSize) {
        elements := elements + [Element("SelectedPaperSize", state.selectedPaperSize.value)];
      }
    }

    /** `ResetSettings`: the product defaults, then the base reset, assigned without notification. */
    method ResetSettings(now: DateTime)
      modifies this`state, core`state
      ensures state == UserDefaults && core.state == ResetState(now)
    {
      state := UserDefaults;
      core.ResetSettingsCore(now);
    }

    /**
     * `Save` on the product settings: the base elements and then the
     * product's are written, with the base class's retries, pauses and
     * warnings; then the proxy is updated.
     */
    method Save(store: SettingsStore, proxyHostFault: Option<Exception>) returns (raised: Option<Exception>)
      modifies core`log, core`updateProxySettings, core`savedEvents, store
      ensures raised.None?
      ensures var k := FailedAttempts(store.outcomes, old(store.writes), SaveRetryLimit + 1);
        store.writes == old(store.writes) + SaveAttempts(store.outcomes, old(store.writes)) &&
        store.file == (if k <= SaveRetryLimit then Some(BaseElements(core.state, core.appName, core.crypto) + UserElements(state)) else old(store.file)) &&
        store.sleeps == old(store.sleeps) + Backoff(k) &&
        (core.Snap(), store.defaultProxy) ==
          ProxyUpdate(old(core.Snap()).(log := old(core.log) + Written(core.state, RetryLines(store.outcomes, old(store.writes), k))),
                      old(store.defaultProxy), proxyHostFault)
      ensures core.savedEvents == old(core.savedEvents) + 1
    {
      var elements := SaveToXmlWriter();
      raised := core.Save(store, elements, proxyHostFault);
    }

    /**
     * `Load` on the product settings: the base settings read the file and
     * hand on the elements they do not know, which the product then reads.
     */
    method Load(store: SettingsStore, proxyHostFault: Option<Exception>, newGuid: Guid, now: DateTime, diagnostics: string)
      requires newGuid != EmptyGuid
      modifies this`state, this`changed, core`state, core`changed, core`log, core`updateProxySettings, store`defaultProxy
      ensures (core.Snap(), store.defaultProxy) ==
        Loaded(old(core.Snap()), old(store.defaultProxy), store.file, core.appName, core.crypto, proxyHostFault, newGuid, now, diagnostics)
      ensures Snap() == ReadUserAll(old(Snap()), if store.file.None? then [] else Forwarded(store.file.value))
    {
      var handedOn := core.Load(store, proxyHostFault, newGuid, now, diagnostics);
      ReadHandedOn(handedOn);
    }
  }

  /**
   * The whole file round trip: reading back the file `Save` writes gives the
   * base settings their values without a notification or log line, and
   * hands the product exactly its own elements, which restore its values.
   */
  lemma SavedFileRestoresSettings(x: Snapshot, y: UserSnapshot, u: UserState, appName: string, crypto: Crypto, now: DateTime, diagnostics: string)
    requires Decrypts(crypto)
    requires !IsNullOrEmpty(u.selectedPaperSize)
    ensures var file := BaseElements(x.state, appName, crypto) + UserElements(u);
      && ReadAll(x, file, appName, crypto, now, diagnostics) == x
      && Forwarded(file) == UserElements(u)
      && ReadUserAll(y, Forwarded(file)).state == u
  {
    var base := BaseElements(x.state, appName, crypto);
    ReadAllAppend(x, base, UserElements(u), appName, crypto, now, diagnostics);
    LoadOfSaved(x, appName, crypto, now, diagnostics);
    UserElementsLeaveBaseAsIs(x, u, appName, crypto, now, diagnostics);
    ReadAllOfNoOps(x, UserElements(u), appName, crypto, now, diagnostics);
    ForwardedAppend(base, UserElements(u));
    ForwardedOfSaved(x.state, SaveOrder, appName, crypto);
    UserElementsHandedOn(u);
    UserLoadOfSaved(y, u);
  }

  /**
   * Reading a saved file into settings that did not write it: every base
   * setting `Save` wrote a text for takes the saved value, the others keep
   * their own, and the product again gets exactly its own elements back.
   */
  lemma FileRestoresSettings(x: Snapshot, s: BaseState, y: UserSnapshot, u: UserState, appName: string, crypto: Crypto, now: DateTime, diagnostics: string)
    requires Decrypts(crypto)
    requires !IsNullOrEmpty(u.selectedPaperSize)
    ensures var file := BaseElements(s, appName, crypto) + UserElements(u);
      && ReadAll(x, file, appName, crypto, now, diagnostics).state == Restored(x.state, s)
      && Forwarded(file) == UserElements(u)
      && ReadUserAll(y, Forwarded(file)).state == u
  {
    var base := BaseElements(s, appName, crypto);
    var read := ReadAll(x, base, appName, crypto, now, diagnostics);
    ReadAllAppend(x, base, UserElements(u), appName, crypto, now, diagnostics);
    LoadRestoresSaved(x, s, appName, crypto, now, diagnostics);
    UserElementsLeaveBaseAsIs(read, u, appName, crypto, now, diagnostics);
    ReadAllOfNoOps(read, UserElements(u), appName, crypto, now, diagnostics);
    ForwardedAppend(base, UserElements(u));
    ForwardedOfSaved(s, SaveOrder, appName, crypto);
    UserElementsHandedOn(u);
    UserLoadOfSaved(y, u);
  }

  /** The base settings ignore the product's elements. */
  lemma UserElementsLeaveBaseAsIs(x: Snapshot, u: UserState, appName: string, crypto: Crypto, now: DateTime, diagnostics: string)
    ensures LeavesAsIs(x, UserElements(u), appName, crypto, now, diagnostics)
  {
    UserElementsHandedOn(u);
    forall i | 0 <= i < |UserElements(u)|
      ensures ReadStep(x, UserElements(u)[i], appName, crypto, now, diagnostics) == x
    {
      UserElementNotBase(u, i);
    }
  }

  lemma UserElementNotBase(u: UserState, i: int)
    requires 0 <= i < |UserElements(u)|
    ensures !IsBaseElement(UserElements(u)[i].name)
  {
    var e := UserElements(u)[i];
    assert e.name[0] != 'B' by {
      assert e in UserElements(u);
    }
    BaseNameInitial(e.name);
  }
}
