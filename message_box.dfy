/**
 * The application's own message box: a modal window with one or two buttons
 * whose result starts as `Ok` when the window loads and is overwritten by the
 * button the user presses.
 */
module MessageBoxes {
  import opened Wrappers
  import opened Exceptions

  datatype MessageBoxResult = Ok | Cancel | Yes | No

  datatype MessageBoxType = OkBox | OkCancelBox | YesNoBox

  datatype MessageBoxIcon = Information | Warning | Question | Error

  /** The part of a WPF button the box configures. */
  datatype Button = Button(content: string, visible: bool, isDefault: bool, isCancel: bool)

  /** A button as the window markup declares it, before `Window_Loaded` configures it. */
  const DeclaredButton: Button := Button("", true, false, false)

  /** The window that asks for the box. */
  datatype OwnerWindow = OwnerWindow(title: string, isLoaded: bool)

  /** What the user does while the box is up. */
  datatype UserAction = CloseWindow | ClickButton1 | ClickButton2 | PressEnter | PressEscape

  // ---------------------------------------------------------------------------
  // Reference behaviour, as a table

  /**
   * What one action does to a loaded box of type `t`: `Some(r)` closes the box
   * with result `r`, `None` leaves it open. Enter presses the default button and
   * Escape the cancel button; a collapsed button cannot be pressed.
   */
  function Outcome(t: MessageBoxType, a: UserAction): Option<MessageBoxResult> {
    match (t, a)
    case (_, CloseWindow) => Some(Ok)
    case (OkBox, ClickButton1) => Some(Ok)
    case (OkBox, ClickButton2) => None
    case (OkBox, PressEnter) => Some(Ok)
    case (OkBox, PressEscape) => None
    case (OkCancelBox, ClickButton1) => Some(Cancel)
    case (OkCancelBox, ClickButton2) => Some(Ok)
    case (OkCancelBox, PressEnter) => Some(Ok)
    case (OkCancelBox, PressEscape) => Some(Cancel)
    case (YesNoBox, ClickButton1) => Some(No)
    case (YesNoBox, ClickButton2) => Some(Yes)
    case (YesNoBox, PressEnter) => Some(Yes)
    case (YesNoBox, PressEscape) => Some(Yes)
  }

  /** The first decision a run of actions reaches, if any. */
  function Decision(t: MessageBoxType, actions: seq<UserAction>): Option<MessageBoxResult> {
    if actions == [] then None
    else if Outcome(t, actions[0]).Some? then Outcome(t, actions[0])
    else Decision(t, actions[1..])
  }

  /**
   * The result `Show` returns when the user performs `actions`; a user who
   * stops acting is taken to close the window.
   */
  function DialogResult(t: MessageBoxType, actions: seq<UserAction>): MessageBoxResult {
    Decision(t, actions).GetOr(Ok)
  }

  /** Appending an action to an undecided run lets that action decide. */
  lemma {:induction false} DecisionAppend(t: MessageBoxType, actions: seq<UserAction>, a: UserAction)
    ensures Decision(t, actions + [a]) ==
      if Decision(t, actions).Some? then Decision(t, actions) else Outcome(t, a)
  {
    if actions != [] {
      assert (actions + [a])[1..] == actions[1..] + [a];
      DecisionAppend(t, actions[1..], a);
    }
  }

  /** Every result a box can give is one its buttons stand for, or `Ok` from closing it. */
  lemma {:induction false} DialogResultAllowed(t: MessageBoxType, actions: seq<UserAction>)
    ensures t == OkBox ==> DialogResult(t, actions) == Ok
    ensures t == OkCancelBox ==> DialogResult(t, actions) in {Ok, Cancel}
    ensures t == YesNoBox ==> DialogResult(t, actions) in {Yes, No, Ok}
  {
    if actions != [] && Outcome(t, actions[0]).None? {
      DialogResultAllowed(t, actions[1..]);
    }
  }

  /** Closing the window before pressing anything answers `Ok`, whatever the box type. */
  lemma ClosingAnswersOk(t: MessageBoxType, rest: seq<UserAction>)
    ensures DialogResult(t, [CloseWindow] + rest) == Ok
  {
  }

  // ---------------------------------------------------------------------------
  // The window

  class CatfoodMessageBox {
    var messageBoxIcon: MessageBoxIcon
    var messageBoxType: MessageBoxType
    var messageBoxResult: MessageBoxResult
    var windowIcon: Option<string>
    var windowMessage: string
    var windowTitle: string
    var exception: Option<Exception>
    var owner: Option<OwnerWindow>
    var showInTaskbar: bool
    var centerScreen: bool
    /** What the window shows once loaded: its icon, title and message text. */
    var icon: Option<string>
    var title: string
    var messageText: string
    var button1: Button
    var button2: Button
    var closed: bool

    /** The buttons as `Window_Loaded` lays them out for the box type. */
    ghost predicate LaidOut()
      reads this
    {
      match messageBoxType
      case OkBox =>
        && button1 == Button("OK", true, true, false)
        && button2 == DeclaredButton.(visible := false)
      case OkCancelBox =>
        && button1 == Button("Cancel", true, false, true)
        && button2 == Button("OK", true, true, false)
      case YesNoBox =>
        && button1 == Button("No", true, false, false)
        && button2 == Button("Yes", true, true, true)
    }

    constructor ()
      ensures messageBoxResult == Ok && !closed
      ensures owner.None? && !showInTaskbar && !centerScreen
      ensures button1 == DeclaredButton && button2 == DeclaredButton
    {
      messageBoxIcon := Information;
      messageBoxType := OkBox;
      messageBoxResult := Ok;
      windowIcon := None;
      windowMessage := "";
      windowTitle := "";
      exception := None;
      owner := None;
      showInTaskbar := false;
      centerScreen := false;
      icon := None;
      title := "";
      messageText := "";
      button1 := DeclaredButton;
      button2 := DeclaredButton;
      closed := false;
    }

    /** Attached to a loaded owner; otherwise free-standing, centred on the screen and shown in the taskbar. */
    ghost predicate PlacedFor(requested: Option<OwnerWindow>)
      reads this
    {
      if requested.Some? && requested.value.isLoaded
      then owner == requested && !showInTaskbar && !centerScreen
      else owner.None? && showInTaskbar && centerScreen
    }

    /** The property assignments `Show` makes on a new box before showing it. */
    method Configure(icon: Option<string>, requested: Option<OwnerWindow>, message: string, title: string,
                     boxType: MessageBoxType, boxIcon: MessageBoxIcon, ex: Option<Exception>)
      requires owner.None? && !showInTaskbar && !centerScreen
      modifies this`messageBoxIcon, this`messageBoxType, this`windowIcon, this`windowMessage,
        this`windowTitle, this`exception, this`owner, this`showInTaskbar, this`centerScreen
      ensures messageBoxType == boxType && messageBoxIcon == boxIcon && windowIcon == icon
      ensures windowMessage == message && windowTitle == title && exception == ex
      ensures PlacedFor(requested)
    {
      messageBoxIcon := boxIcon;
      messageBoxType := boxType;
      windowIcon := icon;
      windowMessage := message;
      windowTitle := title;
      exception := ex;
      if requested.None? || !requested.value.isLoaded {
        showInTaskbar := true;
        centerScreen := true;
      } else {
        owner := requested;
      }
    }

    /** `Window_Loaded`: the result becomes `Ok` and the buttons are laid out for the box type. */
    method WindowLoaded()
      requires button1 == DeclaredButton && button2 == DeclaredButton
      modifies this`messageBoxResult, this`icon, this`title, this`messageText, this`button1, this`button2
      ensures messageBoxResult == Ok && LaidOut()
      ensures icon == windowIcon && title == windowTitle && messageText == windowMessage
    {
      messageBoxResult := Ok;
      icon := windowIcon;
      title := windowTitle;
      messageText := windowMessage;
      match messageBoxType {
        case OkBox =>
          button2 := button2.(visible := false);
          button1 := button1.(content := "OK", isDefault := true);
        case OkCancelBox =>
          button2 := button2.(content := "OK", isDefault := true);
          button1 := button1.(content := "Cancel", isCancel := true);
        case YesNoBox =>
          button2 := button2.(content := "Yes", isDefault := true);
          button1 := button1.(content := "No");
          button2 := button2.(isCancel := true);
      }
    }

    /** `button2_Click`: OK for an OK/Cancel box, Yes for a Yes/No box, no change for an OK box; then close. */
    method Button2Click()
      modifies this`messageBoxResult, this`closed
      ensures closed
      ensures messageBoxResult == match messageBoxType
        case OkBox => old(messageBoxResult)
        case OkCancelBox => Ok
        case YesNoBox => Yes
    {
      match messageBoxType {
        case OkBox =>
        case OkCancelBox => messageBoxResult := Ok;
        case YesNoBox => messageBoxResult := Yes;
      }
      closed := true;
    }

    /** `button1_Click`: OK for an OK box, Cancel for an OK/Cancel box, No for a Yes/No box; then close. */
    method Button1Click()
      modifies this`messageBoxResult, this`closed
      ensures closed
      ensures messageBoxResult == match messageBoxType
        case OkBox => Ok
        case OkCancelBox => Cancel
        case YesNoBox => No
    {
      match messageBoxType {
        case OkBox => messageBoxResult := Ok;
        case OkCancelBox => messageBoxResult := Cancel;
        case YesNoBox => messageBoxResult := No;
      }
      closed := true;
    }

    /**
     * One user action on the open box, routed the way WPF routes it: a click
     * reaches a visible button, Enter the `IsDefault` button, Escape the
     * `IsCancel` button, and closing the window keeps the current result.
     * The routing agrees with the `Outcome` table.
     */
    method Perform(a: UserAction)
      requires LaidOut() && !closed && messageBoxResult == Ok
      modifies this`messageBoxResult, this`closed
      ensures Outcome(messageBoxType, a).Some? ==> closed && messageBoxResult == Outcome(messageBoxType, a).value
      ensures Outcome(messageBoxType, a).None? ==> !closed && messageBoxResult == Ok
    {
      match a {
        case CloseWindow =>
          closed := true;
        case ClickButton1 =>
          if button1.visible { Button1Click(); }
        case ClickButton2 =>
          if button2.visible { Button2Click(); }
        case PressEnter =>
          if button1.isDefault { Button1Click(); }
          else if button2.isDefault { Button2Click(); }
        case PressEscape =>
          if button1.isCancel { Button1Click(); }
          else if button2.isCancel { Button2Click(); }
      }
    }

    /** `ShowDialog`: load the box, then take the user's actions until one of them closes it. */
    method ShowDialog(actions: seq<UserAction>)
      requires button1 == DeclaredButton && button2 == DeclaredButton && !closed
      modifies this`messageBoxResult, this`icon, this`title, this`messageText, this`button1, this`button2, this`closed
      ensures closed && messageBoxResult == DialogResult(messageBoxType, actions)
      ensures icon == windowIcon && title == windowTitle && messageText == windowMessage && LaidOut()
    {
      WindowLoaded();
      var i := 0;
      while i < |actions| && !closed
        invariant 0 <= i <= |actions| && LaidOut()
        invariant icon == windowIcon && title == windowTitle && messageText == windowMessage
        invariant closed <==> Decision(messageBoxType, actions[..i]).Some?
        invariant messageBoxResult == DialogResult(messageBoxType, actions[..i])
      {
        DecisionAppend(messageBoxType, actions[..i], actions[i]);
        assert actions[..i + 1] == actions[..i] + [actions[i]];
        Perform(actions[i]);
        i := i + 1;
      }
      if closed {
        DecisionPrefix(messageBoxType, actions, i);
      } else {
        assert actions[..i] == actions;
        closed := true;
      }
    }
  }

  /** Once a prefix of the actions has decided, the later actions change nothing. */
  lemma {:induction false} DecisionPrefix(t: MessageBoxType, actions: seq<UserAction>, i: nat)
    requires i <= |actions| && Decision(t, actions[..i]).Some?
    ensures Decision(t, actions) == Decision(t, actions[..i])
  {
    if i > 0 && Outcome(t, actions[0]).None? {
      assert actions[..i][1..] == actions[1..][..i - 1];
      DecisionPrefix(t, actions[1..], i - 1);
    }
  }

  /**
   * `Show`: a null message or title raises `ArgumentNullException` before any
   * box exists; otherwise a box is made, attached to the owner when the owner
   * is loaded (centred on the screen and shown in the taskbar when not), and
   * shown until the user closes it.
   */
  method Show(windowIcon: Option<string>, owner: Option<OwnerWindow>, message: Option<string>,
              title: Option<string>, boxType: MessageBoxType, boxIcon: MessageBoxIcon,
              exception: Option<Exception>, actions: seq<UserAction>)
    returns (r: Option<MessageBoxResult>, raised: Option<Exception>, box: CatfoodMessageBox?)
    ensures message.None? ==> r.None? && raised == Some(ArgumentNull("message")) && box == null
    ensures message.Some? && title.None? ==> r.None? && raised == Some(ArgumentNull("title")) && box == null
    ensures message.Some? && title.Some? ==>
      && raised.None? && box != null && fresh(box)
      && r == Some(DialogResult(boxType, actions)) && r == Some(box.messageBoxResult)
      && box.messageBoxType == boxType && box.messageBoxIcon == boxIcon
      && box.windowMessage == message.value && box.windowTitle == title.value
      && box.exception == exception && box.PlacedFor(owner)
  {
    if message.None? {
      return None, Some(ArgumentNull("message")), null;
    }
    if title.None? {
      return None, Some(ArgumentNull("title")), null;
    }
    box := new CatfoodMessageBox();
    box.Configure(windowIcon, owner, message.value, title.value, boxType, boxIcon, exception);
    box.ShowDialog(actions);
    r, raised := Some(box.messageBoxResult), None;
  }

  /** On a Yes/No box both Enter and Escape press the Yes button. */
  lemma YesNoKeysAnswerYes(rest: seq<UserAction>)
    ensures DialogResult(YesNoBox, [PressEnter] + rest) == Yes
    ensures DialogResult(YesNoBox, [PressEscape] + rest) == Yes
  {
  }
}
