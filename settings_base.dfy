/**
 * The settings every Catfood product shares (`CatfoodSettingsBase`):
 * logging, registration, proxy and instance settings with change
 * notification, the settings file written with retries and read back
 * element by element, the process-wide proxy they configure, and the
 * diagnostic log.
 *
 * The settings file is a sequence of (name, text) elements. The product's
 * own settings take part through composition: `Save` is given the elements
 * the product writes after the base ones, and `Load` returns the elements
 * it does not know, in order, for the product to read.
 */
module CatfoodSettings {
  import opened Wrappers
  import opened Exceptions
  import opened Text

  // ---------------------------------------------------------------------------
  // Logging

  /** `LogSeverity`; `Other` stands for any other value the enum variable holds. */
  datatype LogSeverity = Information | Warning | Error | Other

  /** The marker `LogMessage` writes for a severity. */
  function SeverityText(severity: LogSeverity): string {
    match severity
    case Warning => "!--"
    case Error => "!!-"
    case _ => "---"
  }

  /** Warnings and errors are told apart from each other and from everything else; the rest share one marker. */
  lemma SeverityTextsDistinguish(a: LogSeverity, b: LogSeverity)
    ensures SeverityText(a) == SeverityText(b) <==>
      a == b || ((a.Information? || a.Other?) && (b.Information? || b.Other?))
  {
    assert SeverityText(Warning)[1] != SeverityText(Error)[1];
    assert SeverityText(Information)[0] != SeverityText(Warning)[0];
    assert SeverityText(Information)[0] != SeverityText(Error)[0];
  }

  /**
   * A line of the diagnostic log: the severity marker, the message, and for
   * `LogException` the exception dumped after it. The time stamp and the
   * thread id are not modelled.
   */
  datatype LogLine = LogLine(severity: string, message: string, exception: Option<Exception>)

  // ---------------------------------------------------------------------------
  // Values the settings hold

  /** A .NET `int`. */
  type Int32 = i: int | -0x8000_0000 <= i <= 0x7FFF_FFFF

  /** `DateTime.MaxValue.Ticks`. */
  const MaxTicks: int := 3155378975999999999

  /** A `DateTime`, as its tick count. */
  type Ticks = t: int | 0 <= t <= MaxTicks
  datatype DateTime = DateTime(ticks: Ticks)

  /** `new DateTime(ticks)`, with `None` for the `ArgumentOutOfRangeException`. */
  function DateFromTicks(ticks: int): (r: Option<DateTime>)
    ensures r.Some? <==> 0 <= ticks <= MaxTicks
    ensures r.Some? ==> r.value.ticks == ticks
  {
    if 0 <= ticks <= MaxTicks then Some(DateTime(ticks)) else None
  }

  /** A hexadecimal digit's value. */
  type Nibble = n: int | 0 <= n < 16

  /** A `Guid`: its 32 hexadecimal digits, in the order `ToString` prints them. */
  type Guid = g: seq<Nibble> | |g| == 32 witness seq(32, _ => 0)

  /** `Guid.Empty`. */
  const EmptyGuid: Guid := [0, 0, 0, 0, 0, 0, 0, 0, 0, 0, 0, 0, 0, 0, 0, 0, 0, 0, 0, 0, 0, 0, 0, 0, 0, 0, 0, 0, 0, 0, 0, 0]

  function HexDigit(n: Nibble): char {
    if n < 10 then ('0' as int + n) as char else ('a' as int + n - 10) as char
  }

  /** A hexadecimal digit in either case. */
  function HexValue(c: char): Option<Nibble> {
    if '0' <= c <= '9' then Some(c as int - '0' as int)
    else if 'a' <= c <= 'f' then Some(c as int - 'a' as int + 10)
    else if 'A' <= c <= 'F' then Some(c as int - 'A' as int + 10)
    else None
  }

  lemma HexValueOfHexDigit(n: Nibble)
    ensures HexValue(HexDigit(n)) == Some(n)
  {
  }

  /** The positions of the hyphens in the "D" format, 8-4-4-4-12. */
  predicate IsGuidHyphen(i: int) {
    i == 8 || i == 13 || i == 18 || i == 23
  }

  /** Where the `k`th digit stands in the "D" format. */
  function DigitPosition(k: int): int {
    k + (if k >= 8 then 1 else 0) + (if k >= 12 then 1 else 0) + (if k >= 16 then 1 else 0) + (if k >= 20 then 1 else 0)
  }

  /** Which digit stands at a position of the "D" format that holds one. */
  function DigitAt(i: int): int {
    i - (if i > 8 then 1 else 0) - (if i > 13 then 1 else 0) - (if i > 18 then 1 else 0) - (if i > 23 then 1 else 0)
  }

  lemma DigitPositions(k: int)
    requires 0 <= k < 32
    ensures 0 <= DigitPosition(k) < 36 && !IsGuidHyphen(DigitPosition(k)) && DigitAt(DigitPosition(k)) == k
  {
  }

  /** `Guid.ToString()`: the "D" format in lower case. */
  function GuidText(g: Guid): (t: string)
    ensures |t| == 36
  {
    seq(36, i requires 0 <= i < 36 => if IsGuidHyphen(i) then '-' else HexDigit(g[DigitAt(i)]))
  }

  /**
   * `new Guid(s)` for the "D" format: surrounding white space is ignored and
   * the digits may be in either case. `None` is the `FormatException`.
   */
  function ParseGuid(s: string): Option<Guid> {
    var t := TrimWhere(s, WhiteSpace);
    if |t| == 36 && forall i :: 0 <= i < 36 ==> (if IsGuidHyphen(i) then t[i] == '-' else HexValue(t[i]).Some?)
    then
      Some(seq(32, k requires 0 <= k < 32 =>
        DigitPositions(k);
        HexValue(t[DigitPosition(k)]).value))
    else None
  }

  /** What `Guid.ToString()` prints, `new Guid` reads back. */
  lemma ParseGuidText(g: Guid)
    ensures ParseGuid(GuidText(g)) == Some(g)
  {
    var t := GuidText(g);
    assert t[0] == HexDigit(g[0]) && t[35] == HexDigit(g[31]);
    TrimWhereIdentity(t, WhiteSpace);
    forall i | 0 <= i < 36
      ensures if IsGuidHyphen(i) then t[i] == '-' else HexValue(t[i]) == Some(g[DigitAt(i)])
    {
      if !IsGuidHyphen(i) {
        HexValueOfHexDigit(g[DigitAt(i)]);
      }
    }
    var r := ParseGuid(t);
    assert r.Some?;
    forall k | 0 <= k < 32
      ensures r.value[k] == g[k]
    {
      DigitPositions(k);
    }
    assert r.value == g;
  }

  /**
   * `CatfoodCrypto`: `encrypt(plain, key)` and `decrypt(cipher, key)` under
   * the application name as key; decryption fails (`None`) on text it
   * cannot decrypt.
   */
  datatype Crypto = Crypto(encrypt: (string, string) -> string, decrypt: (string, string) -> Option<string>)

  /** Decryption undoes encryption under the same key. */
  ghost predicate Decrypts(crypto: Crypto) {
    forall plain: string, key: string :: crypto.decrypt(crypto.encrypt(plain, key), key) == Some(plain)
  }

  /** The proxy `WebRequest.DefaultWebProxy` holds: the system's, or an explicit one with optional credentials. */
  datatype Credentials = Credentials(user: Option<string>, password: Option<string>, domain: Option<string>)
  datatype WebProxy = SystemProxy | ExplicitProxy(address: Option<string>, port: Int32, credentials: Option<Credentials>)

  /** An element of the settings file: its name and its text. */
  datatype Element = Element(name: string, text: string)

  // ---------------------------------------------------------------------------
  // The settings and their setters

  /** The base settings, one field per property. Strings are nullable. */
  datatype BaseState = BaseState(
    isLoggingEnabled: bool,
    registrationEmail: Option<string>,
    registrationKey: Int32,
    useProxyServer: bool,
    useProxyServerCredentials: bool,
    proxyAddress: Option<string>,
    proxyPort: Int32,
    proxyUser: Option<string>,
    proxyPass: Option<string>,
    proxyDomain: Option<string>,
    instanceId: Guid,
    installDate: DateTime,
    nextUpdateCheck: DateTime)

  /** `ResetSettingsCore`: everything off, null or zero, port 8080, the empty id, and both dates now. */
  function ResetState(now: DateTime): BaseState {
    BaseState(false, None, 0, false, false, None, 8080, None, None, None, EmptyGuid, now, now)
  }

  /** An assignment to one property's setter. */
  datatype Setting =
    | IsLoggingEnabled(flag: bool)
    | RegistrationEmail(text: Option<string>)
    | RegistrationKey(number: Int32)
    | UseProxyServer(flag: bool)
    | UseProxyServerCredentials(flag: bool)
    | ProxyAddress(text: Option<string>)
    | ProxyPort(number: Int32)
    | ProxyUser(text: Option<string>)
    | ProxyPass(text: Option<string>)
    | ProxyDomain(text: Option<string>)
    | InstanceId(id: Guid)
    | InstallDate(date: DateTime)
    | NextUpdateCheck(date: DateTime)
  {
    /** The property name the setter notifies. */
    function Name(): string {
      match this
      case IsLoggingEnabled(_) => "IsLoggingEnabled"
      case RegistrationEmail(_) => "RegistrationEmail"
      case RegistrationKey(_) => "RegistrationKey"
      case UseProxyServer(_) => "UseProxyServer"
      case UseProxyServerCredentials(_) => "UseProxyServerCredentials"
      case ProxyAddress(_) => "ProxyAddress"
      case ProxyPort(_) => "ProxyPort"
      case ProxyUser(_) => "ProxyUser"
      case ProxyPass(_) => "ProxyPass"
      case ProxyDomain(_) => "ProxyDomain"
      case InstanceId(_) => "InstanceId"
      case InstallDate(_) => "InstallDate"
      case NextUpdateCheck(_) => "NextUpdateCheck"
    }

    /** The seven setters that also mark the proxy for updating. */
    predicate IsProxySetting() {
      UseProxyServer? || UseProxyServerCredentials? || ProxyAddress? || ProxyPort? || ProxyUser? || ProxyPass? || ProxyDomain?
    }
  }

  /** The settings with the setting's property holding its value. */
  function With(s: BaseState, setting: Setting): BaseState {
    match setting
    case IsLoggingEnabled(b) => s.(isLoggingEnabled := b)
    case RegistrationEmail(t) => s.(registrationEmail := t)
    case RegistrationKey(n) => s.(registrationKey := n)
    case UseProxyServer(b) => s.(useProxyServer := b)
    case UseProxyServerCredentials(b) => s.(useProxyServerCredentials := b)
    case ProxyAddress(t) => s.(proxyAddress := t)
    case ProxyPort(n) => s.(proxyPort := n)
    case ProxyUser(t) => s.(proxyUser := t)
    case ProxyPass(t) => s.(proxyPass := t)
    case ProxyDomain(t) => s.(proxyDomain := t)
    case InstanceId(g) => s.(instanceId := g)
    case InstallDate(d) => s.(installDate := d)
    case NextUpdateCheck(d) => s.(nextUpdateCheck := d)
  }

  /** A second assignment of the same value changes nothing. */
  lemma WithSettles(s: BaseState, setting: Setting)
    ensures With(With(s, setting), setting) == With(s, setting)
  {
  }

  /** What the settings object shows: the settings, the change notifications, the log, and the proxy's dirty flag. */
  datatype Snapshot = Snapshot(state: BaseState, changed: seq<string>, log: seq<LogLine>, proxyDirty: bool)

  /** The message the logging setter writes when logging is switched on. */
  function LoggingEnabledLine(diagnostics: string): LogLine {
    LogLine(SeverityText(Information), "Logging enabled, diagnostic information:\r\n\r\n" + diagnostics, None)
  }

  /**
   * A property setter: a value that differs from the current one is
   * stored and notified; a proxy setter also marks the proxy for updating;
   * switching logging on writes the diagnostic information to the log.
   * A value equal to the current one changes nothing.
   */
  function Applied(x: Snapshot, setting: Setting, diagnostics: string): Snapshot {
    var s := With(x.state, setting);
    if s == x.state then x
    else Snapshot(s, x.changed + [setting.Name()],
                  x.log + (if setting == IsLoggingEnabled(true) then [LoggingEnabledLine(diagnostics)] else []),
                  x.proxyDirty || setting.IsProxySetting())
  }

  // ---------------------------------------------------------------------------
  // The settings file

  const ElementSettings: string := "Settings"
  const ElementXml: string := "xml"

  /** The elements holding the base settings. */
  datatype BaseElement =
    | ElementIsLoggingEnabled
    | ElementRegistrationEmail
    | ElementRegistrationKey
    | ElementUseProxyServer
    | ElementUseProxyServerCredentials
    | ElementProxyAddress
    | ElementProxyPort
    | ElementProxyUser
    | ElementProxyPass
    | ElementProxyDomain
    | ElementInstanceId
    | ElementInstallDate
    | ElementNextUpdateCheck

  /** The element's name in the file. */
  function ElementName(b: BaseElement): string {
    match b
    case ElementIsLoggingEnabled => "BaseIsLoggingEnabled"
    case ElementRegistrationEmail => "BaseRegistrationEmail"
    case ElementRegistrationKey => "BaseRegistrationKey"
    case ElementUseProxyServer => "BaseUseProxyServer"
    case ElementUseProxyServerCredentials => "BaseUseProxyServerCredentials"
    case ElementProxyAddress => "BaseProxyAddress"
    case ElementProxyPort => "BaseProxyPort"
    case ElementProxyUser => "BaseProxyUser"
    case ElementProxyPass => "BaseProxyPass"
    case ElementProxyDomain => "BaseProxyDomain"
    case ElementInstanceId => "BaseInstanceId"
    case ElementInstallDate => "BaseInstallDate"
    case ElementNextUpdateCheck => "BaseNextUpdateCheck"
  }

  /** The base setting an element name stands for, if any. */
  function ElementOf(name: string): Option<BaseElement> {
    if name == "BaseIsLoggingEnabled" then Some(ElementIsLoggingEnabled)
    else if name == "BaseRegistrationEmail" then Some(ElementRegistrationEmail)
    else if name == "BaseRegistrationKey" then Some(ElementRegistrationKey)
    else if name == "BaseUseProxyServer" then Some(ElementUseProxyServer)
    else if name == "BaseUseProxyServerCredentials" then Some(ElementUseProxyServerCredentials)
    else if name == "BaseProxyAddress" then Some(ElementProxyAddress)
    else if name == "BaseProxyPort" then Some(ElementProxyPort)
    else if name == "BaseProxyUser" then Some(ElementProxyUser)
    else if name == "BaseProxyPass" then Some(ElementProxyPass)
    else if name == "BaseProxyDomain" then Some(ElementProxyDomain)
    else if name == "BaseInstanceId" then Some(ElementInstanceId)
    else if name == "BaseInstallDate" then Some(ElementInstallDate)
    else if name == "BaseNextUpdateCheck" then Some(ElementNextUpdateCheck)
    else None
  }

  lemma ElementOfName(b: BaseElement)
    ensures ElementOf(ElementName(b)) == Some(b)
  {
  }

  /** Every base setting's name starts with "Base", so a name starting otherwise is not one. */
  lemma BaseNameInitial(name: string)
    ensures IsBaseElement(name) ==> name != [] && name[0] == 'B'
  {
    if ElementOf(name).Some? {
      var b := ElementOf(name).value;
      assert name == ElementName(b);
    }
  }

  /** The names `Load` reads as base settings. */
  predicate IsBaseElement(name: string) {
    ElementOf(name).Some?
  }

  /** `new DateTime(Convert.ToInt64(text))`, `None` when either throws. */
  function ParseDate(text: string): Option<DateTime> {
    match ParseInt64(text)
    case Some(ticks) => DateFromTicks(ticks)
    case None => None
  }

  /** What the `try` block of `Load`'s case for the element assigns; `None` when it throws or the name is not a base setting's. */
  function ReadValue(e: Element, appName: string, crypto: Crypto): Option<Setting> {
    var t := e.text;
    match ElementOf(e.name)
    case None => None
    case Some(ElementIsLoggingEnabled) =>
      (match ParseBool(t) case Some(b) => Some(IsLoggingEnabled(b)) case None => None)
    case Some(ElementRegistrationEmail) =>
      (match crypto.decrypt(t, appName) case Some(p) => Some(RegistrationEmail(Some(p))) case None => None)
    case Some(ElementRegistrationKey) =>
      (match ParseInt32(t) case Some(n) => Some(RegistrationKey(n)) case None => None)
    case Some(ElementUseProxyServer) =>
      (match ParseBool(t) case Some(b) => Some(UseProxyServer(b)) case None => None)
    case Some(ElementUseProxyServerCredentials) =>
      (match ParseBool(t) case Some(b) => Some(UseProxyServerCredentials(b)) case None => None)
    case Some(ElementProxyAddress) =>
      Some(ProxyAddress(Some(t)))
    case Some(ElementProxyDomain) =>
      (match crypto.decrypt(t, appName) case Some(p) => Some(ProxyDomain(Some(p))) case None => None)
    case Some(ElementProxyPass) =>
      (match crypto.decrypt(t, appName) case Some(p) => Some(ProxyPass(Some(p))) case None => None)
    case Some(ElementProxyPort) =>
      (match ParseInt32(t) case Some(n) => Some(ProxyPort(n)) case None => None)
    case Some(ElementProxyUser) =>
      (match crypto.decrypt(t, appName) case Some(p) => Some(ProxyUser(Some(p))) case None => None)
    case Some(ElementInstanceId) =>
      (match ParseGuid(t) case Some(g) => Some(InstanceId(g)) case None => None)
    case Some(ElementInstallDate) =>
      (match ParseDate(t) case Some(d) => Some(InstallDate(d)) case None => None)
    case Some(ElementNextUpdateCheck) =>
      (match ParseDate(t) case Some(d) => Some(NextUpdateCheck(d)) case None => None)
  }

  /** What the `catch` block of `Load`'s case for a base setting assigns. */
  function Fallback(b: BaseElement, now: DateTime): Setting {
    match b
    case ElementIsLoggingEnabled => IsLoggingEnabled(false)
    case ElementRegistrationEmail => RegistrationEmail(None)
    case ElementRegistrationKey => RegistrationKey(0)
    case ElementUseProxyServer => UseProxyServer(false)
    case ElementUseProxyServerCredentials => UseProxyServerCredentials(false)
    case ElementProxyAddress => ProxyAddress(None)
    case ElementProxyDomain => ProxyDomain(None)
    case ElementProxyPass => ProxyPass(None)
    case ElementProxyPort => ProxyPort(8080)
    case ElementProxyUser => ProxyUser(None)
    case ElementInstanceId => InstanceId(EmptyGuid)
    case ElementInstallDate => InstallDate(now)
    case ElementNextUpdateCheck => NextUpdateCheck(now)
  }

  /** The fallback for an element name; `None` for a name that is not a base setting's. */
  function FallbackValue(name: string, now: DateTime): Option<Setting> {
    match ElementOf(name)
    case None => None
    case Some(b) => Some(Fallback(b, now))
  }

  /** The setter `Load` calls for an element, if any: the value read, or the fallback when reading throws. */
  function ParseElement(e: Element, appName: string, crypto: Crypto, now: DateTime): Option<Setting> {
    match ReadValue(e, appName, crypto)
    case Some(setting) => Some(setting)
    case None => FallbackValue(e.name, now)
  }

  /** `Load` calls a setter for exactly the base settings' names. */
  lemma ParseElementDispatch(e: Element, appName: string, crypto: Crypto, now: DateTime)
    ensures ParseElement(e, appName, crypto, now).Some? <==> IsBaseElement(e.name)
  {
  }

  /** Every fallback is the value `ResetSettingsCore` gives: an unreadable element leaves freshly reset settings as they are. */
  lemma FallbacksAreResetValues(b: BaseElement, now: DateTime)
    ensures With(ResetState(now), Fallback(b, now)) == ResetState(now)
  {
  }

  /** The order in which `Save` writes the base settings. */
  const SaveOrder: seq<BaseElement> :=
    [ElementIsLoggingEnabled, ElementRegistrationEmail, ElementRegistrationKey, ElementUseProxyServer,
     ElementUseProxyServerCredentials, ElementProxyAddress, ElementProxyDomain, ElementProxyPass, ElementProxyPort,
     ElementProxyUser, ElementInstanceId, ElementInstallDate, ElementNextUpdateCheck]

  /** The text `Save` writes for a base setting; `None` for an empty string, and for the key when there is no e-mail. */
  function SavedText(s: BaseState, b: BaseElement, appName: string, crypto: Crypto): Option<string> {
    match b
    case ElementIsLoggingEnabled => Some(BoolText(s.isLoggingEnabled))
    case ElementRegistrationEmail =>
      if IsNullOrEmpty(s.registrationEmail) then None else Some(crypto.encrypt(s.registrationEmail.value, appName))
    case ElementRegistrationKey =>
      if IsNullOrEmpty(s.registrationEmail) then None else Some(IntToString(s.registrationKey))
    case ElementUseProxyServer => Some(BoolText(s.useProxyServer))
    case ElementUseProxyServerCredentials => Some(BoolText(s.useProxyServerCredentials))
    case ElementProxyAddress => if IsNullOrEmpty(s.proxyAddress) then None else Some(s.proxyAddress.value)
    case ElementProxyDomain =>
      if IsNullOrEmpty(s.proxyDomain) then None else Some(crypto.encrypt(s.proxyDomain.value, appName))
    case ElementProxyPass =>
      if IsNullOrEmpty(s.proxyPass) then None else Some(crypto.encrypt(s.proxyPass.value, appName))
    case ElementProxyPort => Some(IntToString(s.proxyPort))
    case ElementProxyUser =>
      if IsNullOrEmpty(s.proxyUser) then None else Some(crypto.encrypt(s.proxyUser.value, appName))
    case ElementInstanceId => Some(GuidText(s.instanceId))
    case ElementInstallDate => Some(IntToString(s.installDate.ticks))
    case ElementNextUpdateCheck => Some(IntToString(s.nextUpdateCheck.ticks))
  }

  /** The elements written for the given base settings, in the given order. */
  function SavedElements(s: BaseState, order: seq<BaseElement>, appName: string, crypto: Crypto): seq<Element> {
    if order == [] then []
    else
      (match SavedText(s, order[0], appName, crypto)
       case Some(t) => [Element(ElementName(order[0]), t)]
       case None => [])
      + SavedElements(s, order[1..], appName, crypto)
  }

  /** The elements `Save` writes for the base settings, in order. */
  function BaseElements(s: BaseState, appName: string, crypto: Crypto): seq<Element> {
    SavedElements(s, SaveOrder, appName, crypto)
  }

  /** One element of `Load`'s reader loop: the setter for a base setting, nothing for any other element. */
  function ReadStep(x: Snapshot, e: Element, appName: string, crypto: Crypto, now: DateTime, diagnostics: string): Snapshot {
    match ParseElement(e, appName, crypto, now)
    case Some(setting) => Applied(x, setting, diagnostics)
    case None => x
  }

  /** `Load`'s reader loop over the elements, in order. */
  function ReadAll(x: Snapshot, es: seq<Element>, appName: string, crypto: Crypto, now: DateTime, diagnostics: string): Snapshot {
    if es == [] then x
    else ReadStep(ReadAll(x, es[..|es| - 1], appName, crypto, now, diagnostics), es[|es| - 1], appName, crypto, now, diagnostics)
  }

  /** The elements `Load` hands to the product, in order: all but the base settings, the root and the declaration. */
  function Forwarded(es: seq<Element>): seq<Element> {
    if es == [] then []
    else
      Forwarded(es[..|es| - 1]) + HandedOn(es[|es| - 1])
  }

  /** The element itself when `Load` hands it on, nothing when `Load` reads or skips it. */
  function HandedOn(e: Element): seq<Element> {
    if IsBaseElement(e.name) || e.name == ElementXml || e.name == ElementSettings then [] else [e]
  }

  /** Reading two runs of elements one after the other is reading the first, then the second. */
  lemma {:induction false} ReadAllAppend(x: Snapshot, a: seq<Element>, b: seq<Element>, appName: string, crypto: Crypto, now: DateTime, diagnostics: string)
    ensures ReadAll(x, a + b, appName, crypto, now, diagnostics) == ReadAll(ReadAll(x, a, appName, crypto, now, diagnostics), b, appName, crypto, now, diagnostics)
  {
    if b == [] {
      assert a + b == a;
    } else {
      var c := a + b;
      assert c[..|c| - 1] == a + b[..|b| - 1];
      assert c[|c| - 1] == b[|b| - 1];
      ReadAllAppend(x, a, b[..|b| - 1], appName, crypto, now, diagnostics);
    }
  }

  /** The elements handed on from two runs are those handed on from each, in order. */
  lemma {:induction false} ForwardedAppend(a: seq<Element>, b: seq<Element>)
    ensures Forwarded(a + b) == Forwarded(a) + Forwarded(b)
  {
    if b == [] {
      assert a + b == a;
    } else {
      var init, last := b[..|b| - 1], b[|b| - 1];
      assert b == init + [last];
      assert a + b == (a + init) + [last];
      ForwardedAppend(a, init);
      ForwardedSnoc(a + init, last);
      ForwardedSnoc(init, last);
      AppendAssociative(Forwarded(a), Forwarded(init), HandedOn(last));
    }
  }

  lemma ForwardedSnoc(es: seq<Element>, e: Element)
    ensures Forwarded(es + [e]) == Forwarded(es) + HandedOn(e)
  {
    var c := es + [e];
    assert c[..|c| - 1] == es;
  }

  /** `Load` reads every element `Save` writes for the base settings itself: none of them is handed on. */
  lemma {:induction false} ForwardedOfSaved(s: BaseState, order: seq<BaseElement>, appName: string, crypto: Crypto)
    ensures Forwarded(SavedElements(s, order, appName, crypto)) == []
  {
    if order != [] {
      var head := match SavedText(s, order[0], appName, crypto)
                  case Some(t) => [Element(ElementName(order[0]), t)]
                  case None => [];
      ElementOfName(order[0]);
      assert Forwarded(head) == [] by {
        if head != [] {
          assert head[..0] == [];
        }
      }
      ForwardedOfSaved(s, order[1..], appName, crypto);
      ForwardedAppend(head, SavedElements(s, order[1..], appName, crypto));
    }
  }

  /** None of the elements changes the settings when read on its own. */
  ghost predicate LeavesAsIs(x: Snapshot, es: seq<Element>, appName: string, crypto: Crypto, now: DateTime, diagnostics: string) {
    forall i :: 0 <= i < |es| ==> ReadStep(x, es[i], appName, crypto, now, diagnostics) == x
  }

  lemma LeavesAsIsAppend(x: Snapshot, a: seq<Element>, b: seq<Element>, appName: string, crypto: Crypto, now: DateTime, diagnostics: string)
    requires LeavesAsIs(x, a, appName, crypto, now, diagnostics) && LeavesAsIs(x, b, appName, crypto, now, diagnostics)
    ensures LeavesAsIs(x, a + b, appName, crypto, now, diagnostics)
  {
    forall i | 0 <= i < |a + b|
      ensures ReadStep(x, (a + b)[i], appName, crypto, now, diagnostics) == x
    {
      if i >= |a| {
        assert (a + b)[i] == b[i - |a|];
      }
    }
  }

  /** Elements none of which changes anything leave the settings as they are. */
  lemma {:induction false} ReadAllOfNoOps(x: Snapshot, es: seq<Element>, appName: string, crypto: Crypto, now: DateTime, diagnostics: string)
    requires LeavesAsIs(x, es, appName, crypto, now, diagnostics)
    ensures ReadAll(x, es, appName, crypto, now, diagnostics) == x
  {
    if es != [] {
      ReadAllOfNoOps(x, es[..|es| - 1], appName, crypto, now, diagnostics);
    }
  }

  /** The setter call that gives base setting `b` the value it has in `s`. */
  function SettingOf(s: BaseState, b: BaseElement): Setting {
    match b
    case ElementIsLoggingEnabled => IsLoggingEnabled(s.isLoggingEnabled)
    case ElementRegistrationEmail => RegistrationEmail(s.registrationEmail)
    case ElementRegistrationKey => RegistrationKey(s.registrationKey)
    case ElementUseProxyServer => UseProxyServer(s.useProxyServer)
    case ElementUseProxyServerCredentials => UseProxyServerCredentials(s.useProxyServerCredentials)
    case ElementProxyAddress => ProxyAddress(s.proxyAddress)
    case ElementProxyDomain => ProxyDomain(s.proxyDomain)
    case ElementProxyPass => ProxyPass(s.proxyPass)
    case ElementProxyPort => ProxyPort(s.proxyPort)
    case ElementProxyUser => ProxyUser(s.proxyUser)
    case ElementInstanceId => InstanceId(s.instanceId)
    case ElementInstallDate => InstallDate(s.installDate)
    case ElementNextUpdateCheck => NextUpdateCheck(s.nextUpdateCheck)
  }

  lemma ReadSavedLogging(s: BaseState, appName: string, crypto: Crypto, now: DateTime)
    ensures ParseElement(Element(ElementName(ElementIsLoggingEnabled), SavedText(s, ElementIsLoggingEnabled, appName, crypto).value), appName, crypto, now)
      == Some(SettingOf(s, ElementIsLoggingEnabled))
  {
    ElementOfName(ElementIsLoggingEnabled);
    ParseBoolOfBoolText(s.isLoggingEnabled);
  }

  lemma ReadSavedUseProxy(s: BaseState, appName: string, crypto: Crypto, now: DateTime)
    ensures ParseElement(Element(ElementName(ElementUseProxyServer), SavedText(s, ElementUseProxyServer, appName, crypto).value), appName, crypto, now)
      == Some(SettingOf(s, ElementUseProxyServer))
  {
    ElementOfName(ElementUseProxyServer);
    ParseBoolOfBoolText(s.useProxyServer);
  }

  lemma ReadSavedUseCredentials(s: BaseState, appName: string, crypto: Crypto, now: DateTime)
    ensures ParseElement(Element(ElementName(ElementUseProxyServerCredentials), SavedText(s, ElementUseProxyServerCredentials, appName, crypto).value), appName, crypto, now)
      == Some(SettingOf(s, ElementUseProxyServerCredentials))
  {
    ElementOfName(ElementUseProxyServerCredentials);
    ParseBoolOfBoolText(s.useProxyServerCredentials);
  }

  lemma ReadSavedPort(s: BaseState, appName: string, crypto: Crypto, now: DateTime)
    ensures ParseElement(Element(ElementName(ElementProxyPort), SavedText(s, ElementProxyPort, appName, crypto).value), appName, crypto, now)
      == Some(SettingOf(s, ElementProxyPort))
  {
    ElementOfName(ElementProxyPort);
    ParseInt32OfIntToString(s.proxyPort);
  }

  lemma ReadSavedKey(s: BaseState, appName: string, crypto: Crypto, now: DateTime)
    requires SavedText(s, ElementRegistrationKey, appName, crypto).Some?
    ensures ParseElement(Element(ElementName(ElementRegistrationKey), SavedText(s, ElementRegistrationKey, appName, crypto).value), appName, crypto, now)
      == Some(SettingOf(s, ElementRegistrationKey))
  {
    ElementOfName(ElementRegistrationKey);
    ParseInt32OfIntToString(s.registrationKey);
  }

  lemma ReadSavedSecret(s: BaseState, b: BaseElement, appName: string, crypto: Crypto, now: DateTime)
    requires Decrypts(crypto)
    requires SavedText(s, b, appName, crypto).Some?
    requires b.ElementRegistrationEmail? || b.ElementProxyDomain? || b.ElementProxyPass? || b.ElementProxyUser?
    ensures ParseElement(Element(ElementName(b), SavedText(s, b, appName, crypto).value), appName, crypto, now) == Some(SettingOf(s, b))
  {
    ElementOfName(b);
  }

  lemma ReadSavedInstanceId(s: BaseState, appName: string, crypto: Crypto, now: DateTime)
    ensures ParseElement(Element(ElementName(ElementInstanceId), SavedText(s, ElementInstanceId, appName, crypto).value), appName, crypto, now)
      == Some(SettingOf(s, ElementInstanceId))
  {
    ElementOfName(ElementInstanceId);
    ParseGuidText(s.instanceId);
  }

  lemma ReadSavedInstallDate(s: BaseState, appName: string, crypto: Crypto, now: DateTime)
    ensures ParseElement(Element(ElementName(ElementInstallDate), SavedText(s, ElementInstallDate, appName, crypto).value), appName, crypto, now)
      == Some(SettingOf(s, ElementInstallDate))
  {
    ElementOfName(ElementInstallDate);
    ParseInt64OfIntToString(s.installDate.ticks);
  }

  lemma ReadSavedNextUpdateCheck(s: BaseState, appName: string, crypto: Crypto, now: DateTime)
    ensures ParseElement(Element(ElementName(ElementNextUpdateCheck), SavedText(s, ElementNextUpdateCheck, appName, crypto).value), appName, crypto, now)
      == Some(SettingOf(s, ElementNextUpdateCheck))
  {
    ElementOfName(ElementNextUpdateCheck);
    ParseInt64OfIntToString(s.nextUpdateCheck.ticks);
  }

  /** `Load` parses the one element `Save` wrote for a setting into the setter call that assigns the value it was written from. */
  lemma ReadSavedElement(s: BaseState, b: BaseElement, appName: string, crypto: Crypto, now: DateTime)
    requires Decrypts(crypto)
    requires SavedText(s, b, appName, crypto).Some?
    ensures ParseElement(Element(ElementName(b), SavedText(s, b, appName, crypto).value), appName, crypto, now) == Some(SettingOf(s, b))
  {
    if b.ElementIsLoggingEnabled? {
      ReadSavedLogging(s, appName, crypto, now);
    } else if b.ElementUseProxyServer? {
      ReadSavedUseProxy(s, appName, crypto, now);
    } else if b.ElementUseProxyServerCredentials? {
      ReadSavedUseCredentials(s, appName, crypto, now);
    } else if b.ElementProxyPort? {
      ReadSavedPort(s, appName, crypto, now);
    } else if b.ElementRegistrationKey? {
      ReadSavedKey(s, appName, crypto, now);
    } else if b.ElementRegistrationEmail? || b.ElementProxyDomain? || b.ElementProxyPass? || b.ElementProxyUser? {
      ReadSavedSecret(s, b, appName, crypto, now);
    } else if b.ElementProxyAddress? {
      ElementOfName(b);
    } else if b.ElementInstanceId? {
      ReadSavedInstanceId(s, appName, crypto, now);
    } else if b.ElementInstallDate? {
      ReadSavedInstallDate(s, appName, crypto, now);
    } else {
      ReadSavedNextUpdateCheck(s, appName, crypto, now);
    }
  }

  /** Assigning a setting the value it already has changes nothing. */
  lemma WithOwnSetting(s: BaseState, b: BaseElement)
    ensures With(s, SettingOf(s, b)) == s
  {
  }

  lemma {:induction false} SavedElementsLeaveAsIs(x: Snapshot, order: seq<BaseElement>, appName: string, crypto: Crypto, now: DateTime, diagnostics: string)
    requires Decrypts(crypto)
    ensures LeavesAsIs(x, SavedElements(x.state, order, appName, crypto), appName, crypto, now, diagnostics)
  {
    if order != [] {
      var head := match SavedText(x.state, order[0], appName, crypto)
                  case Some(t) => [Element(ElementName(order[0]), t)]
                  case None => [];
      if SavedText(x.state, order[0], appName, crypto).Some? {
        ReadSavedElement(x.state, order[0], appName, crypto, now);
        WithOwnSetting(x.state, order[0]);
      }
      SavedElementsLeaveAsIs(x, order[1..], appName, crypto, now, diagnostics);
      LeavesAsIsAppend(x, head, SavedElements(x.state, order[1..], appName, crypto), appName, crypto, now, diagnostics);
    }
  }

  /** Reading back what `Save` wrote for the settings changes nothing: no value, no notification, no log line. */
  lemma LoadOfSaved(x: Snapshot, appName: string, crypto: Crypto, now: DateTime, diagnostics: string)
    requires Decrypts(crypto)
    ensures ReadAll(x, BaseElements(x.state, appName, crypto), appName, crypto, now, diagnostics) == x
  {
    SavedElementsLeaveAsIs(x, SaveOrder, appName, crypto, now, diagnostics);
    ReadAllOfNoOps(x, BaseElements(x.state, appName, crypto), appName, crypto, now, diagnostics);
  }

  /** Whether `Save` writes base setting `b` for `s`: not for an empty string, nor the key without an e-mail. */
  predicate IsSaved(s: BaseState, b: BaseElement) {
    match b
    case ElementRegistrationEmail => !IsNullOrEmpty(s.registrationEmail)
    case ElementRegistrationKey => !IsNullOrEmpty(s.registrationEmail)
    case ElementProxyAddress => !IsNullOrEmpty(s.proxyAddress)
    case ElementProxyDomain => !IsNullOrEmpty(s.proxyDomain)
    case ElementProxyPass => !IsNullOrEmpty(s.proxyPass)
    case ElementProxyUser => !IsNullOrEmpty(s.proxyUser)
    case _ => true
  }

  /**
   * What reading the file `Save` wrote for `s` leaves in settings that held
   * `v`: every setting `Save` writes takes its value from `s`; a string that
   * was empty is not written and keeps `v`'s value, and so does the key
   * when there is no e-mail.
   */
  function Restored(v: BaseState, s: BaseState): BaseState {
    var email := !IsNullOrEmpty(s.registrationEmail);
    BaseState(
      s.isLoggingEnabled,
      if email then s.registrationEmail else v.registrationEmail,
      if email then s.registrationKey else v.registrationKey,
      s.useProxyServer,
      s.useProxyServerCredentials,
      if IsNullOrEmpty(s.proxyAddress) then v.proxyAddress else s.proxyAddress,
      s.proxyPort,
      if IsNullOrEmpty(s.proxyUser) then v.proxyUser else s.proxyUser,
      if IsNullOrEmpty(s.proxyPass) then v.proxyPass else s.proxyPass,
      if IsNullOrEmpty(s.proxyDomain) then v.proxyDomain else s.proxyDomain,
      s.instanceId,
      s.installDate,
      s.nextUpdateCheck)
  }

  /** Reading the element written for setting `b` of `s`, if there is one, into settings holding `v`. */
  function RestoreStep(v: BaseState, s: BaseState, b: BaseElement): BaseState {
    if IsSaved(s, b) then With(v, SettingOf(s, b)) else v
  }

  /** Reading the settings written for `s` in the given order, one setter call per written setting. */
  function RestoredIn(v: BaseState, s: BaseState, order: seq<BaseElement>): BaseState
    decreases |order|
  {
    if order == [] then v else RestoredIn(RestoreStep(v, s, order[0]), s, order[1..])
  }

  /** `Save` writes a text for a setting exactly when `IsSaved` says so. */
  lemma SavedTextWhenSaved(s: BaseState, b: BaseElement, appName: string, crypto: Crypto)
    ensures SavedText(s, b, appName, crypto).Some? <==> IsSaved(s, b)
  {
  }

  /** Reading the elements written for `s` calls, in order, the setter of each written setting with `s`'s value. */
  lemma {:induction false} ReadAllOfSaved(x: Snapshot, s: BaseState, order: seq<BaseElement>, appName: string, crypto: Crypto,
                                          now: DateTime, diagnostics: string)
    requires Decrypts(crypto)
    ensures ReadAll(x, SavedElements(s, order, appName, crypto), appName, crypto, now, diagnostics).state == RestoredIn(x.state, s, order)
    decreases |order|
  {
    if order != [] {
      var b := order[0];
      var head := match SavedText(s, b, appName, crypto)
                  case Some(t) => [Element(ElementName(b), t)]
                  case None => [];
      var rest := SavedElements(s, order[1..], appName, crypto);
      ReadAllAppend(x, head, rest, appName, crypto, now, diagnostics);
      var y := ReadAll(x, head, appName, crypto, now, diagnostics);
      SavedTextWhenSaved(s, b, appName, crypto);
      if IsSaved(s, b) {
        ReadSavedElement(s, b, appName, crypto, now);
        assert head[..0] == [];
        assert y.state == With(x.state, SettingOf(s, b));
      }
      ReadAllOfSaved(y, s, order[1..], appName, crypto, now, diagnostics);
    }
  }

  /** One setter call changes the setting it assigns and no other. */
  lemma StepSetting(v: BaseState, s: BaseState, c: BaseElement, b: BaseElement)
    ensures SettingOf(RestoreStep(v, s, c), b) == if c == b && IsSaved(s, b) then SettingOf(s, b) else SettingOf(v, b)
  {
  }

  /** After reading the settings written in `order`, a setting holds `s`'s value when it is in `order` and written, else its old one. */
  lemma {:induction false} RestoredInSetting(v: BaseState, s: BaseState, order: seq<BaseElement>, b: BaseElement)
    ensures SettingOf(RestoredIn(v, s, order), b) == if b in order && IsSaved(s, b) then SettingOf(s, b) else SettingOf(v, b)
    decreases |order|
  {
    if order != [] {
      RestoredInSetting(RestoreStep(v, s, order[0]), s, order[1..], b);
      StepSetting(v, s, order[0], b);
      assert b in order <==> b == order[0] || b in order[1..];
    }
  }

  /** `Restored` holds `s`'s value for exactly the settings `Save` writes, and `v`'s for the others. */
  lemma RestoredSetting(v: BaseState, s: BaseState, b: BaseElement)
    ensures SettingOf(Restored(v, s), b) == if IsSaved(s, b) then SettingOf(s, b) else SettingOf(v, b)
  {
  }

  /** Two settings states that agree on every setting are equal. */
  lemma SettingsDetermineState(x: BaseState, y: BaseState)
    requires forall b: BaseElement :: SettingOf(x, b) == SettingOf(y, b)
    ensures x == y
  {
    assert SettingOf(x, ElementIsLoggingEnabled) == SettingOf(y, ElementIsLoggingEnabled);
    assert SettingOf(x, ElementRegistrationEmail) == SettingOf(y, ElementRegistrationEmail);
    assert SettingOf(x, ElementRegistrationKey) == SettingOf(y, ElementRegistrationKey);
    assert SettingOf(x, ElementUseProxyServer) == SettingOf(y, ElementUseProxyServer);
    assert SettingOf(x, ElementUseProxyServerCredentials) == SettingOf(y, ElementUseProxyServerCredentials);
    assert SettingOf(x, ElementProxyAddress) == SettingOf(y, ElementProxyAddress);
    assert SettingOf(x, ElementProxyDomain) == SettingOf(y, ElementProxyDomain);
    assert SettingOf(x, ElementProxyPass) == SettingOf(y, ElementProxyPass);
    assert SettingOf(x, ElementProxyPort) == SettingOf(y, ElementProxyPort);
    assert SettingOf(x, ElementProxyUser) == SettingOf(y, ElementProxyUser);
    assert SettingOf(x, ElementInstanceId) == SettingOf(y, ElementInstanceId);
    assert SettingOf(x, ElementInstallDate) == SettingOf(y, ElementInstallDate);
    assert SettingOf(x, ElementNextUpdateCheck) == SettingOf(y, ElementNextUpdateCheck);
  }

  /** `Save` writes every base setting it has a text for: each one appears in its order. */
  lemma InSaveOrder(b: BaseElement)
    ensures b in SaveOrder
  {
    match b
    case ElementIsLoggingEnabled => assert SaveOrder[0] == b;
    case ElementRegistrationEmail => assert SaveOrder[1] == b;
    case ElementRegistrationKey => assert SaveOrder[2] == b;
    case ElementUseProxyServer => assert SaveOrder[3] == b;
    case ElementUseProxyServerCredentials => assert SaveOrder[4] == b;
    case ElementProxyAddress => assert SaveOrder[5] == b;
    case ElementProxyDomain => assert SaveOrder[6] == b;
    case ElementProxyPass => assert SaveOrder[7] == b;
    case ElementProxyPort => assert SaveOrder[8] == b;
    case ElementProxyUser => assert SaveOrder[9] == b;
    case ElementInstanceId => assert SaveOrder[10] == b;
    case ElementInstallDate => assert SaveOrder[11] == b;
    case ElementNextUpdateCheck => assert SaveOrder[12] == b;
  }

  /** Reading back `Save`'s elements in its order is `Restored`. */
  lemma SaveOrderRestores(v: BaseState, s: BaseState)
    ensures RestoredIn(v, s, SaveOrder) == Restored(v, s)
  {
    forall b: BaseElement
      ensures SettingOf(RestoredIn(v, s, SaveOrder), b) == SettingOf(Restored(v, s), b)
    {
      RestoredInSetting(v, s, SaveOrder, b);
      RestoredSetting(v, s, b);
      InSaveOrder(b);
    }
    SettingsDetermineState(RestoredIn(v, s, SaveOrder), Restored(v, s));
  }

  /**
   * Reading back the file `Save` wrote for `s`, into settings in any state,
   * gives every written setting `s`'s value and leaves the unwritten ones
   * as they were.
   */
  lemma LoadRestoresSaved(x: Snapshot, s: BaseState, appName: string, crypto: Crypto, now: DateTime, diagnostics: string)
    requires Decrypts(crypto)
    ensures ReadAll(x, BaseElements(s, appName, crypto), appName, crypto, now, diagnostics).state == Restored(x.state, s)
  {
    ReadAllOfSaved(x, s, SaveOrder, appName, crypto, now, diagnostics);
    SaveOrderRestores(x.state, s);
  }

  /** Settings whose strings are null or non-empty, with a zero key when there is no e-mail: `Save` writes all of them. */
  predicate FullySaved(s: BaseState) {
    && (s.registrationEmail.None? ==> s.registrationKey == 0)
    && (s.registrationEmail.Some? ==> s.registrationEmail.value != "")
    && (s.proxyAddress.Some? ==> s.proxyAddress.value != "")
    && (s.proxyUser.Some? ==> s.proxyUser.value != "")
    && (s.proxyPass.Some? ==> s.proxyPass.value != "")
    && (s.proxyDomain.Some? ==> s.proxyDomain.value != "")
  }

  /**
   * A freshly reset settings object that reads the file `Save` wrote for `s`
   * holds exactly `s` when `Save` could write all of it, and otherwise
   * differs only by null for the empty strings and 0 for a key without
   * e-mail.
   */
  lemma FreshLoadRestores(s: BaseState, now: DateTime)
    ensures Restored(ResetState(now), s) == s <==> FullySaved(s)
    ensures var r := Restored(ResetState(now), s);
      && (IsNullOrEmpty(s.registrationEmail) ==> r.registrationEmail.None? && r.registrationKey == 0)
      && (IsNullOrEmpty(s.proxyAddress) ==> r.proxyAddress.None?)
      && (IsNullOrEmpty(s.proxyUser) ==> r.proxyUser.None?)
      && (IsNullOrEmpty(s.proxyPass) ==> r.proxyPass.None?)
      && (IsNullOrEmpty(s.proxyDomain) ==> r.proxyDomain.None?)
  {
  }

  /** Setting a property twice in a row to the same value has the effect of setting it once. */
  lemma AppliedIdempotent(x: Snapshot, setting: Setting, diagnostics: string)
    ensures var once := Applied(x, setting, diagnostics);
      Applied(once, setting, diagnostics) == once
  {
    WithSettles(x.state, setting);
  }

  /** A setter notifies exactly when the value changes, and then with its own property name, once. */
  lemma AppliedNotifiesChange(x: Snapshot, setting: Setting, diagnostics: string)
    ensures var y := Applied(x, setting, diagnostics);
      && (y.changed == x.changed <==> With(x.state, setting) == x.state)
      && (y.changed != x.changed ==> y.changed == x.changed + [setting.Name()])
      && (y.proxyDirty != x.proxyDirty ==> setting.IsProxySetting())
  {
    var y := Applied(x, setting, diagnostics);
    if With(x.state, setting) != x.state {
      assert |y.changed| == |x.changed| + 1;
    }
  }
  // ---------------------------------------------------------------------------
  // Validation (`IDataErrorInfo`)

  /** `this[columnName]`: the error shown next to a property, `None` for `null`; the base class validates nothing else. */
  function DataError(s: BaseState, columnName: string): Option<string> {
    if columnName == "ProxyAddress" then
      if s.useProxyServer && IsNullOrEmpty(s.proxyAddress) then Some("Proxy Address Required") else None
    else if columnName == "ProxyPort" then
      if s.useProxyServer && (s.proxyPort < 0 || s.proxyPort > 65536) then Some("Proxy Port Invalid") else None
    else if columnName == "ProxyUser" then
      if s.useProxyServer && s.useProxyServerCredentials && IsNullOrEmpty(s.proxyUser) then Some("Username Required") else None
    else if columnName == "ProxyPass" then
      if s.useProxyServer && s.useProxyServerCredentials && IsNullOrEmpty(s.proxyPass) then Some("Password Required") else None
    else None
  }

  /** Only the four proxy columns are ever in error, and none of them while no proxy server is used. */
  lemma DataErrorOnlyForProxy(s: BaseState, columnName: string)
    ensures DataError(s, columnName).Some? ==>
      s.useProxyServer && columnName in ["ProxyAddress", "ProxyPort", "ProxyUser", "ProxyPass"]
  {
  }

  /** The port check accepts every port from 0 to 65536, one more than a TCP port can be. */
  lemma DataErrorPortRange(s: BaseState)
    requires s.useProxyServer
    ensures DataError(s, "ProxyPort").None? <==> 0 <= s.proxyPort <= 65536
  {
    assert "ProxyPort" != "ProxyAddress";
  }

  /** Settings that pass validation give an explicit proxy with an address, and with a user name and password when credentials are used. */
  lemma ValidSettingsGiveCompleteProxy(s: BaseState)
    requires s.useProxyServer
    requires DataError(s, "ProxyAddress").None? && DataError(s, "ProxyUser").None? && DataError(s, "ProxyPass").None?
    ensures ProxyFor(s).ExplicitProxy? && !IsNullOrEmpty(ProxyFor(s).address)
    ensures s.useProxyServerCredentials ==>
      ProxyFor(s).credentials.Some? && !IsNullOrEmpty(ProxyFor(s).credentials.value.user) && !IsNullOrEmpty(ProxyFor(s).credentials.value.password)
  {
    assert "ProxyUser" != "ProxyAddress" && "ProxyUser" != "ProxyPort";
    assert "ProxyPass" != "ProxyAddress" && "ProxyPass" != "ProxyPort" && "ProxyPass" != "ProxyUser";
  }

  // ---------------------------------------------------------------------------
  // The proxy

  /** The proxy `UpdateProxyServer` installs for the settings: the system's, or the explicit one with its credentials. */
  function ProxyFor(s: BaseState): WebProxy {
    if !s.useProxyServer then SystemProxy
    else
      ExplicitProxy(s.proxyAddress, s.proxyPort,
        if !s.useProxyServerCredentials then None
        else if IsNullOrEmpty(s.proxyDomain) then Some(Credentials(s.proxyUser, s.proxyPass, None))
        else Some(Credentials(s.proxyUser, s.proxyPass, s.proxyDomain)))
  }

  /** The log lines `LogMessage` writes: all of them while logging is enabled, none otherwise. */
  function Written(s: BaseState, lines: seq<LogLine>): seq<LogLine> {
    if s.isLoggingEnabled then lines else []
  }

  lemma WrittenAppend(s: BaseState, log: seq<LogLine>, a: seq<LogLine>, b: seq<LogLine>)
    ensures log + Written(s, a) + Written(s, b) == log + Written(s, a + b)
  {
    if s.isLoggingEnabled {
      assert log + a + b == log + (a + b);
    } else {
      assert log + [] + [] == log + [];
    }
  }

  /**
   * `new WebProxy(address, port)` parses the URI "http://address:port": an
   * address that is null or empty leaves no host name, and a port outside
   * 0 to 65535 is not a URI port; either throws `UriFormatException`.
   */
  function ProxyUriFault(s: BaseState): Option<Exception> {
    if IsNullOrEmpty(s.proxyAddress) then Some(ClrException("UriFormatException", "Invalid URI: The hostname could not be parsed."))
    else if !(0 <= s.proxyPort <= 65535) then Some(ClrException("UriFormatException", "Invalid URI: Invalid port specified."))
    else None
  }

  /**
   * The exception building the explicit proxy throws: the URI's own, and
   * otherwise `hostFault`, standing for a non-empty address that is still no
   * valid host name.
   */
  function ProxyFault(s: BaseState, hostFault: Option<Exception>): Option<Exception> {
    if ProxyUriFault(s).Some? then ProxyUriFault(s) else hostFault
  }

  /**
   * `UpdateProxyServer`: a marked proxy is installed and the mark cleared,
   * unless building the explicit proxy throws, which is logged and leaves
   * the mark for the next attempt.
   */
  function ProxyUpdate(x: Snapshot, proxy: WebProxy, hostFault: Option<Exception>): (Snapshot, WebProxy) {
    if !x.proxyDirty then (x, proxy)
    else if x.state.useProxyServer && ProxyFault(x.state, hostFault).Some? then
      (x.(log := x.log + Written(x.state, [LogLine(SeverityText(Error), "Failed to update proxy settings", ProxyFault(x.state, hostFault))])), proxy)
    else (x.(proxyDirty := false), ProxyFor(x.state))
  }

  /** The mark is cleared exactly when the update gets through, and the installed proxy then follows the settings. */
  lemma ProxyUpdateClears(x: Snapshot, proxy: WebProxy, hostFault: Option<Exception>)
    ensures var (y, p) := ProxyUpdate(x, proxy, hostFault);
      y.state == x.state && y.changed == x.changed &&
      (y.proxyDirty <==> x.proxyDirty && x.state.useProxyServer && ProxyFault(x.state, hostFault).Some?) &&
      (x.proxyDirty && !y.proxyDirty ==> p == ProxyFor(x.state)) &&
      (y.log != x.log ==> y.proxyDirty)
  {
  }

  /**
   * An explicit proxy is only ever installed with an address and a TCP
   * port: without them the update fails, keeps the mark and the old proxy,
   * and logs the `UriFormatException` whatever the host name's syntax.
   */
  lemma ProxyNeedsAddressAndPort(x: Snapshot, proxy: WebProxy, hostFault: Option<Exception>)
    requires x.proxyDirty && x.state.useProxyServer
    ensures var (y, p) := ProxyUpdate(x, proxy, hostFault);
      && (!y.proxyDirty ==> p.ExplicitProxy? && !IsNullOrEmpty(p.address) && 0 <= p.port <= 65535)
      && (IsNullOrEmpty(x.state.proxyAddress) || !(0 <= x.state.proxyPort <= 65535) ==>
            y.proxyDirty && p == proxy
            && y.log == x.log + Written(x.state, [LogLine(SeverityText(Error), "Failed to update proxy settings", ProxyUriFault(x.state))])
            && ProxyUriFault(x.state).value.typeName == "UriFormatException")
  {
  }

  /**
   * Validation accepts port 65536, but no proxy can be built on it: settings
   * that pass every check can still fail to update the proxy.
   */
  lemma ValidPortCanFail(x: Snapshot, proxy: WebProxy, hostFault: Option<Exception>)
    requires x.proxyDirty && x.state.useProxyServer && x.state.proxyPort == 65536
    ensures DataError(x.state, "ProxyPort").None?
    ensures ProxyUpdate(x, proxy, hostFault).0.proxyDirty
  {
    DataErrorPortRange(x.state);
  }

  /** A second update right after one that got through changes nothing. */
  lemma ProxyUpdateSettles(x: Snapshot, proxy: WebProxy, fault: Option<Exception>, again: Option<Exception>)
    requires !ProxyUpdate(x, proxy, fault).0.proxyDirty
    ensures ProxyUpdate(ProxyUpdate(x, proxy, fault).0, ProxyUpdate(x, proxy, fault).1, again) == ProxyUpdate(x, proxy, fault)
  {
  }

  // ---------------------------------------------------------------------------
  // Saving with retries

  const SaveRetryLimit: nat := 4
  const SaveRetryWaitMs: nat := 250

  /** The outcome of a numbered write attempt: the exception it throws, `None` when it succeeds. */
  function Outcome(outcomes: seq<Option<Exception>>, i: nat): Option<Exception> {
    if i < |outcomes| then outcomes[i] else None
  }

  /** How many write attempts in a row fail from attempt `start` on, counting at most `limit`. */
  function FailedAttempts(outcomes: seq<Option<Exception>>, start: nat, limit: nat): (k: nat)
    ensures k <= limit
    decreases limit
  {
    if limit == 0 || Outcome(outcomes, start).None? then 0
    else 1 + FailedAttempts(outcomes, start + 1, limit - 1)
  }

  /** The attempts before the `k`-th fail, and the `k`-th succeeds unless the limit was reached. */
  lemma {:induction false} FailedAttemptsMeaning(outcomes: seq<Option<Exception>>, start: nat, limit: nat)
    ensures var k := FailedAttempts(outcomes, start, limit);
      (forall i :: start <= i < start + k ==> Outcome(outcomes, i).Some?) &&
      (k < limit ==> Outcome(outcomes, start + k).None?)
    decreases limit
  {
    if limit > 0 && Outcome(outcomes, start).Some? {
      FailedAttemptsMeaning(outcomes, start + 1, limit - 1);
    }
  }

  /** Attempt `r`, reached after `r` failures: if it fails there is one failure more, if it succeeds the failures stop at `r`. */
  lemma FailedAttemptsStep(outcomes: seq<Option<Exception>>, start: nat, limit: nat, r: nat)
    requires r < limit && r <= FailedAttempts(outcomes, start, limit)
    ensures Outcome(outcomes, start + r).Some? ==> r + 1 <= FailedAttempts(outcomes, start, limit)
    ensures Outcome(outcomes, start + r).None? ==> r == FailedAttempts(outcomes, start, limit)
  {
    FailedAttemptsMeaning(outcomes, start, limit);
  }

  /** The warning logged after a failed attempt. */
  function RetryMessage(attempt: nat): string {
    "Failed to save settings, retrying (attempt " + IntToString(attempt) + " of " + IntToString(SaveRetryLimit) + ")"
  }

  /** The warnings logged for the first `k` attempts from `start`, each with its exception. */
  function RetryLines(outcomes: seq<Option<Exception>>, start: nat, k: nat): (lines: seq<LogLine>)
    ensures |lines| == k
  {
    if k == 0 then []
    else RetryLines(outcomes, start, k - 1) + [LogLine(SeverityText(Warning), RetryMessage(k), Outcome(outcomes, start + k - 1))]
  }

  /** The pause after failure number `n + 1`: 250 ms, growing by 250 ms each time. */
  function Pause(n: nat): nat {
    if n == 0 then SaveRetryWaitMs else Pause(n - 1) + SaveRetryWaitMs
  }

  /** The pauses after `k` failed attempts, in milliseconds. */
  function Backoff(k: nat): (pauses: seq<nat>)
    ensures |pauses| == k
  {
    if k == 0 then [] else Backoff(k - 1) + [Pause(k - 1)]
  }

  /** The `i`-th pause is 250 ms times `i + 1`. */
  lemma {:induction false} BackoffMeaning(k: nat)
    ensures forall i :: 0 <= i < k ==> Backoff(k)[i] == SaveRetryWaitMs * (i + 1)
  {
    if k > 0 {
      BackoffMeaning(k - 1);
      PauseValue(k - 1);
      assert forall i :: 0 <= i < k - 1 ==> Backoff(k)[i] == Backoff(k - 1)[i];
    }
  }

  lemma {:induction false} PauseValue(n: nat)
    ensures Pause(n) == SaveRetryWaitMs * (n + 1)
  {
    if n > 0 {
      PauseValue(n - 1);
    }
  }

  /** How many writes `Save` attempts: one more than the failures, and never more than five. */
  function SaveAttempts(outcomes: seq<Option<Exception>>, start: nat): nat {
    var k := FailedAttempts(outcomes, start, SaveRetryLimit + 1);
    if k == SaveRetryLimit + 1 then k else k + 1
  }

  /** `Save` stops at the first write that succeeds, and gives up after five failures; the pauses start at 250 ms and grow by 250 ms. */
  lemma SaveRetriesBounded(outcomes: seq<Option<Exception>>, start: nat)
    ensures 1 <= SaveAttempts(outcomes, start) <= SaveRetryLimit + 1
    ensures forall i :: start <= i < start + SaveAttempts(outcomes, start) - 1 ==> Outcome(outcomes, i).Some?
    ensures Outcome(outcomes, start + SaveAttempts(outcomes, start) - 1).None? <==> FailedAttempts(outcomes, start, SaveRetryLimit + 1) <= SaveRetryLimit
    ensures var pauses := Backoff(FailedAttempts(outcomes, start, SaveRetryLimit + 1));
      |pauses| <= SaveRetryLimit + 1 && (|pauses| > 0 ==> pauses[0] == 250) &&
      forall i :: 0 < i < |pauses| ==> pauses[i] == pauses[i - 1] + 250
  {
    FailedAttemptsMeaning(outcomes, start, SaveRetryLimit + 1);
    BackoffMeaning(FailedAttempts(outcomes, start, SaveRetryLimit + 1));
  }

  /** What `Save`'s retry loop changes: the settings file, the writes attempted, the pauses taken and the log. */
  datatype SaveProgress = SaveProgress(file: Option<seq<Element>>, writes: nat, sleeps: seq<nat>, log: seq<LogLine>)

  /** One pass of the retry loop after `attempt` failures: a write, and when it fails the warning and the pause. */
  function AfterAttempt(p: SaveProgress, outcomes: seq<Option<Exception>>, elements: seq<Element>, s: BaseState, attempt: nat): SaveProgress {
    match Outcome(outcomes, p.writes)
    case None => p.(file := Some(elements), writes := p.writes + 1)
    case Some(_) =>
      p.(writes := p.writes + 1, sleeps := p.sleeps + [Pause(attempt)],
         log := p.log + Written(s, [LogLine(SeverityText(Warning), RetryMessage(attempt + 1), Outcome(outcomes, p.writes))]))
  }

  /** The progress after `r` failed passes from `p`. */
  function Retrying(p: SaveProgress, outcomes: seq<Option<Exception>>, s: BaseState, r: nat): SaveProgress {
    p.(writes := p.writes + r, sleeps := p.sleeps + Backoff(r), log := p.log + Written(s, RetryLines(outcomes, p.writes, r)))
  }

  /** The whole retry loop: the failed passes, then the pass that succeeds unless all five failed. */
  function Retried(p: SaveProgress, outcomes: seq<Option<Exception>>, elements: seq<Element>, s: BaseState): SaveProgress {
    var k := FailedAttempts(outcomes, p.writes, SaveRetryLimit + 1);
    if k == SaveRetryLimit + 1 then Retrying(p, outcomes, s, k)
    else Retrying(p, outcomes, s, k).(file := Some(elements), writes := p.writes + k + 1)
  }

  /** A failed pass extends the failures by one. */
  lemma RetryingFails(p: SaveProgress, outcomes: seq<Option<Exception>>, elements: seq<Element>, s: BaseState, r: nat)
    requires r <= SaveRetryLimit && r <= FailedAttempts(outcomes, p.writes, SaveRetryLimit + 1)
    requires Outcome(outcomes, p.writes + r).Some?
    ensures r + 1 <= FailedAttempts(outcomes, p.writes, SaveRetryLimit + 1)
    ensures AfterAttempt(Retrying(p, outcomes, s, r), outcomes, elements, s, r) == Retrying(p, outcomes, s, r + 1)
  {
    FailedAttemptsStep(outcomes, p.writes, SaveRetryLimit + 1, r);
    var q := Retrying(p, outcomes, s, r);
    var line := LogLine(SeverityText(Warning), RetryMessage(r + 1), Outcome(outcomes, p.writes + r));
    assert AfterAttempt(q, outcomes, elements, s, r) ==
      q.(writes := q.writes + 1, sleeps := q.sleeps + [Pause(r)], log := q.log + Written(s, [line]));
    AppendAssociative(p.sleeps, Backoff(r), [Pause(r)]);
    WrittenAppend(s, p.log, RetryLines(outcomes, p.writes, r),
      [LogLine(SeverityText(Warning), RetryMessage(r + 1), Outcome(outcomes, p.writes + r))]);
  }

  /** A pass that succeeds ends the loop. */
  lemma RetryingSucceeds(p: SaveProgress, outcomes: seq<Option<Exception>>, elements: seq<Element>, s: BaseState, r: nat)
    requires r <= SaveRetryLimit && r <= FailedAttempts(outcomes, p.writes, SaveRetryLimit + 1)
    requires Outcome(outcomes, p.writes + r).None?
    ensures AfterAttempt(Retrying(p, outcomes, s, r), outcomes, elements, s, r) == Retried(p, outcomes, elements, s)
  {
    FailedAttemptsStep(outcomes, p.writes, SaveRetryLimit + 1, r);
  }

  /** What the retry loop leaves: five writes at most, the file written exactly when one succeeded, one pause and one warning per failure. */
  lemma RetriedMeaning(p: SaveProgress, outcomes: seq<Option<Exception>>, elements: seq<Element>, s: BaseState)
    ensures var q := Retried(p, outcomes, elements, s);
      var k := FailedAttempts(outcomes, p.writes, SaveRetryLimit + 1);
      q.writes == p.writes + SaveAttempts(outcomes, p.writes) &&
      q.file == (if k <= SaveRetryLimit then Some(elements) else p.file) &&
      q.sleeps == p.sleeps + Backoff(k) &&
      q.log == p.log + Written(s, RetryLines(outcomes, p.writes, k))
  {
  }

  lemma AppendAssociative<T>(a: seq<T>, b: seq<T>, c: seq<T>)
    ensures a + (b + c) == a + b + c
  {
  }

  /** `Load`'s last step: a settings file without an instance id gets a new one. */
  function WithInstanceId(x: Snapshot, newGuid: Guid, diagnostics: string): Snapshot {
    if x.state.instanceId == EmptyGuid then Applied(x, InstanceId(newGuid), diagnostics) else x
  }

  /** Whatever the file held, the settings end with an instance id. */
  lemma WithInstanceIdSet(x: Snapshot, newGuid: Guid, diagnostics: string)
    requires newGuid != EmptyGuid
    ensures WithInstanceId(x, newGuid, diagnostics).state.instanceId != EmptyGuid
    ensures x.state.instanceId != EmptyGuid ==> WithInstanceId(x, newGuid, diagnostics) == x
  {
  }

  /**
   * `Load`: the file's elements read in order and the proxy updated, when
   * there is a file; then an instance id generated if there is none.
   */
  function Loaded(x: Snapshot, proxy: WebProxy, file: Option<seq<Element>>, appName: string, crypto: Crypto,
                  proxyHostFault: Option<Exception>, newGuid: Guid, now: DateTime, diagnostics: string): (Snapshot, WebProxy)
  {
    var (y, p) := match file
      case None => (x, proxy)
      case Some(es) => ProxyUpdate(ReadAll(x, es, appName, crypto, now, diagnostics), proxy, proxyHostFault);
    (WithInstanceId(y, newGuid, diagnostics), p)
  }

  /** The error the constructor throws for its application name, `None` for a usable one. */
  function AppNameError(appName: Option<string>): (r: Option<Exception>)
    ensures r.None? <==> !IsNullOrEmpty(appName)
  {
    match appName
    case None => Some(ArgumentNull("appName"))
    case Some(name) => if |name| == 0 then Some(ArgumentError("appName may not be empty")) else None
  }

  // ---------------------------------------------------------------------------
  // The environment the settings live in

  /**
   * The file system and the process-wide proxy: the settings file, the
   * outcome of each successive write attempt (writes past the end of the
   * script succeed), the pauses taken, and `WebRequest.DefaultWebProxy`.
   */
  class SettingsStore {
    var file: Option<seq<Element>>
    const outcomes: seq<Option<Exception>>
    var writes: nat
    var sleeps: seq<nat>
    var defaultProxy: WebProxy

    constructor (file: Option<seq<Element>>, outcomes: seq<Option<Exception>>, defaultProxy: WebProxy)
      ensures this.file == file && this.outcomes == outcomes && writes == 0 && sleeps == [] && this.defaultProxy == defaultProxy
    {
      this.file := file;
      this.outcomes := outcomes;
      writes := 0;
      sleeps := [];
      this.defaultProxy := defaultProxy;
    }

    /** One attempt to write the settings file: it replaces the file unless it throws. */
    method Write(elements: seq<Element>) returns (fault: Option<Exception>)
      modifies this`file, this`writes
      ensures fault == Outcome(outcomes, old(writes)) && writes == old(writes) + 1
      ensures file == if fault.None? then Some(elements) else old(file)
    {
      fault := Outcome(outcomes, writes);
      writes := writes + 1;
      if fault.None? {
        file := Some(elements);
      }
    }
  }

  // ---------------------------------------------------------------------------
  // The settings object

  /**
   * `CatfoodSettingsBase`. The thirteen base settings are held as one
   * record; `changed` lists the `PropertyChanged` notifications raised, in
   * order; `log` is what this object appended to the diagnostic log;
   * `savedEvents` counts the `SettingsSaved` events.
   */
  class SettingsBase {
    const appName: string
    const crypto: Crypto
    var state: BaseState
    var changed: seq<string>
    var log: seq<LogLine>
    var updateProxySettings: bool
    var savedEvents: nat

    function Snap(): Snapshot
      reads this
    {
      Snapshot(state, changed, log, updateProxySettings)
    }

    /** The constructor, for a non-empty name (see `AppNameError` for the others): reset settings, the proxy marked for updating. */
    constructor (appName: string, crypto: Crypto, now: DateTime)
      requires appName != ""
      ensures this.appName == appName && this.crypto == crypto
      ensures state == ResetState(now) && changed == [] && log == [] && updateProxySettings && savedEvents == 0
    {
      this.appName := appName;
      this.crypto := crypto;
      state := ResetState(now);
      changed := [];
      log := [];
      updateProxySettings := true;
      savedEvents := 0;
    }

    /** `LogMessage`: appends to the log only while logging is enabled. */
    method LogMessage(severity: LogSeverity, message: string)
      modifies this`log
      ensures log == old(log) + Written(state, [LogLine(SeverityText(severity), message, None)])
    {
      if state.isLoggingEnabled {
        log := log + [LogLine(SeverityText(severity), message, None)];
      }
    }

    /** `LogException`: the message logged with the exception dumped after it. */
    method LogException(severity: LogSeverity, message: string, ex: Exception)
      modifies this`log
      ensures log == old(log) + Written(state, [LogLine(SeverityText(severity), message, Some(ex))])
    {
      if state.isLoggingEnabled {
        log := log + [LogLine(SeverityText(severity), message, Some(ex))];
      }
    }

    /** A property setter. */
    method Set(setting: Setting, diagnostics: string)
      modifies this`state, this`changed, this`log, this`updateProxySettings
      ensures Snap() == Applied(old(Snap()), setting, diagnostics)
    {
      var next := With(state, setting);
      if next != state {
        state := next;
        if setting.IsProxySetting() {
          updateProxySettings := true;
        }
        if setting.IsLoggingEnabled? && state.isLoggingEnabled {
          LogMessage(Information, "Logging enabled, diagnostic information:\r\n\r\n" + diagnostics);
        }
        changed := changed + [setting.Name()];
      }
    }

    /** `ResetSettingsCore`: the defaults, assigned to the fields directly, so nothing is notified. */
    method ResetSettingsCore(now: DateTime)
      modifies this`state
      ensures state == ResetState(now)
    {
      state := ResetState(now);
    }

    /** The locations `Save`'s retry loop changes. */
    ghost function Progress(store: SettingsStore): SaveProgress
      reads this, store
    {
      SaveProgress(store.file, store.writes, store.sleeps, log)
    }

    /**
     * One pass of `Save`'s retry loop, after `attempt` failures: a write,
     * and when it fails, the warning and the pause that follow.
     */
    method TryWrite(store: SettingsStore, elements: seq<Element>, attempt: nat) returns (fault: Option<Exception>)
      modifies this`log, store`file, store`writes, store`sleeps
      ensures fault == Outcome(store.outcomes, old(store.writes))
      ensures Progress(store) == AfterAttempt(old(Progress(store)), store.outcomes, elements, old(state), attempt)
    {
      fault := store.Write(elements);
      if fault.Some? {
        LogException(Warning, RetryMessage(attempt + 1), fault.value);
        store.sleeps := store.sleeps + [Pause(attempt)];
      }
    }

    /**
     * The retry loop of `Save`: up to five write attempts, stopping at the
     * first that succeeds. It ends with `retryAttempt` counting the failures
     * and `lastException` holding the last one only when all five failed.
     */
    method WriteWithRetries(store: SettingsStore, elements: seq<Element>) returns (retryAttempt: nat, lastException: Option<Exception>)
      modifies this`log, store`file, store`writes, store`sleeps
      ensures retryAttempt == FailedAttempts(store.outcomes, old(store.writes), SaveRetryLimit + 1)
      ensures lastException.Some? <==> retryAttempt == SaveRetryLimit + 1
      ensures Progress(store) == Retried(old(Progress(store)), store.outcomes, elements, old(state))
    {
      ghost var p := Progress(store);
      ghost var k := FailedAttempts(store.outcomes, p.writes, SaveRetryLimit + 1);
      ghost var s := state;
      lastException := None;
      retryAttempt := 0;
      while retryAttempt <= SaveRetryLimit
        invariant retryAttempt <= k
        invariant lastException.Some? <==> retryAttempt > 0
        invariant Progress(store) == Retrying(p, store.outcomes, s, retryAttempt)
      {
        lastException := None;
        var fault := TryWrite(store, elements, retryAttempt);
        if fault.None? {
          RetryingSucceeds(p, store.outcomes, elements, s, retryAttempt);
          break;
        }
        RetryingFails(p, store.outcomes, elements, s, retryAttempt);
        lastException := fault;
        retryAttempt := retryAttempt + 1;
      }
    }

    /**
     * `Save`: writes the base elements then the product's, with retries.
     * The rethrow after the loop is kept as written; its guard never holds,
     * so `Save` always goes on to update the proxy and raise `SettingsSaved`.
     */
    method Save(store: SettingsStore, derived: seq<Element>, proxyHostFault: Option<Exception>) returns (raised: Option<Exception>)
      modifies this`log, this`updateProxySettings, this`savedEvents, store
      ensures raised.None?
      ensures var k := FailedAttempts(store.outcomes, old(store.writes), SaveRetryLimit + 1);
        store.writes == old(store.writes) + SaveAttempts(store.outcomes, old(store.writes)) &&
        store.file == (if k <= SaveRetryLimit then Some(BaseElements(state, appName, crypto) + derived) else old(store.file)) &&
        store.sleeps == old(store.sleeps) + Backoff(k) &&
        (Snap(), store.defaultProxy) ==
          ProxyUpdate(old(Snap()).(log := old(log) + Written(state, RetryLines(store.outcomes, old(store.writes), k))),
                      old(store.defaultProxy), proxyHostFault) &&
        savedEvents == old(savedEvents) + 1
    {
      var retryAttempt, lastException := WriteWithRetries(store, BaseElements(state, appName, crypto) + derived);
      var rethrow := retryAttempt == SaveRetryLimit && lastException.Some?;
      log := if rethrow then log + Written(state, [LogLine(SeverityText(Error), "Failed to save settings", None)]) else log;
      if rethrow {
        raised := lastException;
      } else {
        raised := None;
        UpdateProxyServer(store, proxyHostFault);
        savedEvents := savedEvents + 1;
      }
    }

    /**
     * The reader loop of `Load`: each base setting's element goes to its
     * setter, with the fallback value when its text cannot be read; the
     * root and the declaration are skipped; every other element is handed
     * on, in order, for the product to read.
     */
    method ReadElements(es: seq<Element>, now: DateTime, diagnostics: string) returns (forwarded: seq<Element>)
      modifies this`state, this`changed, this`log, this`updateProxySettings
      ensures Snap() == ReadAll(old(Snap()), es, appName, crypto, now, diagnostics)
      ensures forwarded == Forwarded(es)
    {
      forwarded := [];
      var i := 0;
      while i < |es|
        invariant 0 <= i <= |es|
        invariant Snap() == ReadAll(old(Snap()), es[..i], appName, crypto, now, diagnostics)
        invariant forwarded == Forwarded(es[..i])
      {
        assert es[..i + 1][..i] == es[..i];
        var e := es[i];
        ParseElementDispatch(e, appName, crypto, now);
        match ParseElement(e, appName, crypto, now) {
          case Some(setting) =>
            Set(setting, diagnostics);
          case None =>
            if e.name != ElementXml && e.name != ElementSettings {
              forwarded := forwarded + [e];
            }
        }
        i := i + 1;
      }
      assert es[..i] == es;
    }

    /**
     * `Load`, with `newGuid` the id `Guid.NewGuid` returns and `now` the
     * time `DateTime.Now` gives for an unreadable date. It returns the
     * elements the product reads.
     */
    method Load(store: SettingsStore, proxyHostFault: Option<Exception>, newGuid: Guid, now: DateTime, diagnostics: string)
      returns (forwarded: seq<Element>)
      requires newGuid != EmptyGuid
      modifies this`state, this`changed, this`log, this`updateProxySettings, store`defaultProxy
      ensures (Snap(), store.defaultProxy) ==
        Loaded(old(Snap()), old(store.defaultProxy), store.file, appName, crypto, proxyHostFault, newGuid, now, diagnostics)
      ensures forwarded == if store.file.None? then [] else Forwarded(store.file.value)
      ensures state.instanceId != EmptyGuid
    {
      forwarded := [];
      if store.file.Some? {
        forwarded := ReadElements(store.file.value, now, diagnostics);
        UpdateProxyServer(store, proxyHostFault);
      }
      WithInstanceIdSet(Snap(), newGuid, diagnostics);
      if state.instanceId == EmptyGuid {
        Set(InstanceId(newGuid), diagnostics);
      }
    }

    /** `UpdateProxyServer`, with `hostFault` the exception a malformed non-empty address throws, if any. */
    method UpdateProxyServer(store: SettingsStore, hostFault: Option<Exception>)
      modifies this`log, this`updateProxySettings, store`defaultProxy
      ensures (Snap(), store.defaultProxy) == ProxyUpdate(old(Snap()), old(store.defaultProxy), hostFault)
    {
      if updateProxySettings {
        var fault := ProxyFault(state, hostFault);
        if state.useProxyServer && fault.Some? {
          LogException(Error, "Failed to update proxy settings", fault.value);
        } else {
          store.defaultProxy := ProxyFor(state);
          updateProxySettings := false;
        }
      }
    }
  }
}
