/** The on-screen keyboard of src/gui/keyboard_ui.py: one button per layout
    key, painted by the key's class (stop key, bound, unbound), with click
    handlers fixed when the button is created. */
module Keyboard {
  import opened Text
  import opened Config
  import opened Engine
  import opened Player

  /** The keys of the layout, row by row (src/gui/keyboard_ui.py:29-60); the
      width of each key is not modelled. */
  const Layout: seq<seq<Key>> := [
    ["`", "1", "2", "3", "4", "5", "6", "7", "8", "9", "0", "-", "=", "BACKSPACE"],
    ["TAB", "Q", "W", "E", "R", "T", "Y", "U", "I", "O", "P", "[", "]", "\\"],
    ["CAPS", "A", "S", "D", "F", "G", "H", "J", "K", "L", ";", "'", "ENTER"],
    ["SHIFT", "Z", "X", "C", "V", "B", "N", "M", ",", ".", "/", "SHIFT"],
    ["CTRL", "WIN", "ALT", "SPACE", "ALT", "CTRL"]
  ]

  function Flatten(rows: seq<seq<Key>>): seq<Key>
  {
    if rows == [] then [] else rows[0] + Flatten(rows[1..])
  }

  /** The keys in the order their buttons are created. */
  const LayoutKeys: seq<Key> := Flatten(Layout)

  /** A label with no line break and no lower-case letter. */
  predicate PlainKey(k: Key) {
    k != [] && forall i :: 0 <= i < |k| ==> k[i] != '\n' && !IsLowerChar(k[i])
  }

  lemma LayoutRows()
    ensures |Layout| == 5
    ensures forall k :: k in Layout[0] ==> PlainKey(k)
    ensures forall k :: k in Layout[1] ==> PlainKey(k)
    ensures forall k :: k in Layout[2] ==> PlainKey(k)
    ensures forall k :: k in Layout[3] ==> PlainKey(k)
    ensures forall k :: k in Layout[4] ==> PlainKey(k)
  {
    UpperRows();
    LowerRows();
  }

  lemma UpperRows()
    ensures forall k :: k in Layout[0] ==> PlainKey(k)
    ensures forall k :: k in Layout[1] ==> PlainKey(k)
  {
  }

  lemma LowerRows()
    ensures forall k :: k in Layout[2] ==> PlainKey(k)
    ensures forall k :: k in Layout[3] ==> PlainKey(k)
    ensures forall k :: k in Layout[4] ==> PlainKey(k)
  {
  }

  lemma {:induction false} FlattenMember(rows: seq<seq<Key>>, k: Key)
    requires k in Flatten(rows)
    ensures exists r :: 0 <= r < |rows| && k in rows[r]
  {
    if k !in rows[0] {
      FlattenMember(rows[1..], k);
      var r :| 0 <= r < |rows[1..]| && k in rows[1..][r];
      assert k in rows[r + 1];
    }
  }

  /** The flattened layout is the five rows one after another. */
  lemma LayoutConcat()
    ensures LayoutKeys == Layout[0] + Layout[1] + Layout[2] + Layout[3] + Layout[4]
  {
    assert Flatten(Layout[4..]) == Layout[4];
    assert Layout[3..][1..] == Layout[4..];
    assert Layout[2..][1..] == Layout[3..];
    assert Layout[1..][1..] == Layout[2..];
  }

  /** 59 buttons, none of whose labels contains a line break or a lower-case
      letter. */
  lemma LayoutKeysShape()
    ensures |LayoutKeys| == 59
    ensures forall k :: k in LayoutKeys ==> PlainKey(k) && '\n' !in k && IsUpper(k)
  {
    LayoutConcat();
    LayoutRows();
    forall k | k in LayoutKeys
      ensures PlainKey(k) && '\n' !in k && IsUpper(k)
    {
      FlattenMember(Layout, k);
    }
  }

  /** How a button is painted. */
  datatype KeyClass = StopKey | Bound | Unbound

  /** What a click on a button does: the choice is fixed when it is created
      (src/gui/keyboard_ui.py:166-173). */
  datatype Wiring = StopMessage | Clickable

  /** A button: the key its click handler captured, that handler, the label
      text and the colours it shows. */
  datatype KeyButton = KeyButton(key: Key, wiring: Wiring, text: string, look: KeyClass)

  /** The stop-key test is case-insensitive and comes first; then binding
      (src/gui/keyboard_ui.py:106-121, 236-252). */
  function Classify(key: Key, stopKey: Key, bindings: map<Key, Path>): (c: KeyClass)
    ensures c == StopKey <==> Upper(key) == Upper(stopKey)
    ensures c == Bound <==> Upper(key) != Upper(stopKey) && key in bindings
  {
    if Upper(key) == Upper(stopKey) then StopKey
    else if key in bindings then Bound
    else Unbound
  }

  const StopMark: string := "\n[停止键]"

  /** The label: the key, with a second line marking the stop key. */
  function DisplayText(key: Key, c: KeyClass): (t: string)
  {
    if c == StopKey then key + StopMark else key
  }

  /** The first line of a label is its key, which is what `refresh_all` reads
      back (src/gui/keyboard_ui.py:234). */
  lemma DisplayTextFirstLine(key: Key, c: KeyClass)
    requires '\n' !in key
    ensures Before(DisplayText(key, c), '\n') == key
  {
    assert StopMark == ['\n'] + "[停止键]";
    assert key + StopMark == key + ['\n'] + "[停止键]";
    BeforeOf(key, '\n', "[停止键]");
  }

  /** `create_key_button` (src/gui/keyboard_ui.py:95-175). */
  function CreateKeyButton(key: Key, stopKey: Key, bindings: map<Key, Path>): (b: KeyButton)
    ensures b.key == key && b.look == Classify(key, stopKey, bindings)
    ensures b.wiring == StopMessage <==> b.look == StopKey
  {
    var c := Classify(key, stopKey, bindings);
    KeyButton(key, if c == StopKey then StopMessage else Clickable, DisplayText(key, c), c)
  }

  /** One step of `refresh_all` (src/gui/keyboard_ui.py:232-260): read the key
      back from the first line of the label and repaint; the handler stays. */
  function Repaint(b: KeyButton, stopKey: Key, bindings: map<Key, Path>): KeyButton
  {
    var key := Before(b.text, '\n');
    var c := Classify(key, stopKey, bindings);
    b.(text := DisplayText(key, c), look := c)
  }

  /** Repainting a button whose label starts with its key paints it as a
      freshly created button would be painted, keeps the label's first line,
      and keeps the click handler it was created with. */
  lemma RepaintShowsState(b: KeyButton, stopKey: Key, bindings: map<Key, Path>)
    requires Before(b.text, '\n') == b.key && '\n' !in b.key
    ensures var r := Repaint(b, stopKey, bindings); var n := CreateKeyButton(b.key, stopKey, bindings);
      r.look == n.look && r.text == n.text && r.key == b.key && r.wiring == b.wiring
      && Before(r.text, '\n') == b.key
  {
    DisplayTextFirstLine(b.key, Classify(b.key, stopKey, bindings));
  }

  /** Buttons in layout order, each label starting with its key. */
  ghost predicate Labelled(bs: seq<KeyButton>) {
    && |bs| == |LayoutKeys|
    && forall i :: 0 <= i < |bs| ==> bs[i].key == LayoutKeys[i] && Before(bs[i].text, '\n') == LayoutKeys[i]
  }

  /** Freshly created buttons are labelled by their keys. */
  lemma CreatedLabelled(bs: seq<KeyButton>, stopKey: Key, bindings: map<Key, Path>)
    requires |bs| == |LayoutKeys|
    requires forall i :: 0 <= i < |bs| ==> bs[i] == CreateKeyButton(LayoutKeys[i], stopKey, bindings)
    ensures Labelled(bs)
  {
    LayoutKeysShape();
    forall i | 0 <= i < |bs|
      ensures Before(bs[i].text, '\n') == LayoutKeys[i]
    {
      assert LayoutKeys[i] in LayoutKeys;
      DisplayTextFirstLine(LayoutKeys[i], bs[i].look);
    }
  }

  /** Repainting every button keeps the labels' first lines and paints each
      button by its own key. */
  lemma RepaintAll(olds: seq<KeyButton>, news: seq<KeyButton>, stopKey: Key, bindings: map<Key, Path>)
    requires Labelled(olds) && |news| == |olds|
    requires forall i :: 0 <= i < |olds| ==> news[i] == Repaint(olds[i], stopKey, bindings)
    ensures Labelled(news)
    ensures forall i :: 0 <= i < |news| ==>
      news[i].look == Classify(LayoutKeys[i], stopKey, bindings) && news[i].wiring == olds[i].wiring
  {
    LayoutKeysShape();
    forall i | 0 <= i < |olds|
      ensures news[i].key == LayoutKeys[i] && Before(news[i].text, '\n') == LayoutKeys[i]
      ensures news[i].look == Classify(LayoutKeys[i], stopKey, bindings)
    {
      assert LayoutKeys[i] in LayoutKeys;
      RepaintShowsState(olds[i], stopKey, bindings);
    }
  }

  /** What a click on a button leads to (src/gui/keyboard_ui.py:166-188). */
  datatype Route = ShowStopMessage | Ignore | OpenMenu | BindNew

  function RouteOf(b: KeyButton, stopKey: Key, bindings: map<Key, Path>): Route
  {
    if b.wiring == StopMessage then ShowStopMessage
    else if b.key == stopKey then Ignore
    else if b.key in bindings then OpenMenu
    else BindNew
  }

  /** The entry picked in the menu of a bound key (src/gui/keyboard_ui.py:190-202). */
  datatype MenuChoice = Dismiss | ReplaceSound | DeleteBinding

  /** `bind_new_sound` (src/gui/keyboard_ui.py:204-214): an empty path is a
      cancelled file dialog. */
  function BindNewSoundOutcome(s: State, key: Key, chosen: Path): (r: State)
    requires Inv(s)
    ensures Inv(r)
  {
    if chosen != "" then Engine.AddSound(s, key, chosen) else s
  }

  /** The player state after a click on a button. */
  function ClickOutcome(s: State, b: KeyButton, choice: MenuChoice, chosen: Path): (r: State)
    requires Inv(s)
    ensures Inv(r)
  {
    match RouteOf(b, s.stopKey, s.keySounds)
    case ShowStopMessage => s
    case Ignore => s
    case BindNew => BindNewSoundOutcome(s, b.key, chosen)
    case OpenMenu =>
      match choice
      case Dismiss => s
      case ReplaceSound => BindNewSoundOutcome(s, b.key, chosen)
      case DeleteBinding => Engine.RemoveSound(s, b.key)
  }

  /** Whether the click ends with `refresh_all`: after a chosen file, and
      after a removal that did not raise. */
  predicate ClickRefreshes(s: State, b: KeyButton, choice: MenuChoice, chosen: Path)
  {
    match RouteOf(b, s.stopKey, s.keySounds)
    case ShowStopMessage => false
    case Ignore => false
    case BindNew => chosen != ""
    case OpenMenu =>
      match choice
      case Dismiss => false
      case ReplaceSound => chosen != ""
      case DeleteBinding => !RemoveSoundRaises(s, b.key)
  }

  /** A click never binds the stop key: its own button is wired to the
      message or stops at the equality test, and a click on any other button
      binds, rebinds or removes only that button's key. */
  lemma ClickTouchesOnlyItsKey(s: State, b: KeyButton, choice: MenuChoice, chosen: Path)
    requires Inv(s)
    ensures var r := ClickOutcome(s, b, choice, chosen);
      && (b.key == s.stopKey || b.wiring == StopMessage ==> r == s)
      && (forall k :: k != b.key ==> (k in r.keySounds <==> k in s.keySounds))
      && (forall k :: k != b.key && k in s.keySounds ==> r.keySounds[k] == s.keySounds[k])
      && (s.stopKey !in s.keySounds ==> s.stopKey !in r.keySounds)
  {
    ClickBindings(s, b, choice, chosen);
  }

  /** A click leaves the bindings alone, removes the button's key, or binds
      it to the chosen file. */
  lemma ClickBindings(s: State, b: KeyButton, choice: MenuChoice, chosen: Path)
    requires Inv(s)
    ensures var r := ClickOutcome(s, b, choice, chosen);
      || r.keySounds == s.keySounds
      || r.keySounds == s.keySounds - {b.key}
      || r.keySounds == s.keySounds[b.key := chosen]
  {
    if RouteOf(b, s.stopKey, s.keySounds) == OpenMenu && choice == DeleteBinding {
      RemoveSoundEffect(s, b.key);
    } else if chosen != "" {
      AddSoundEffect(s, b.key, chosen);
    }
  }

  /** From the menu of a bound key, choosing a file overwrites that key's
      binding (src/gui/keyboard_ui.py:198, 204-214). */
  lemma MenuReplaceOverwrites(s: State, b: KeyButton, chosen: Path)
    requires Inv(s) && RouteOf(b, s.stopKey, s.keySounds) == OpenMenu && chosen != ""
    ensures ClickOutcome(s, b, ReplaceSound, chosen).keySounds == s.keySounds[b.key := chosen]
  {
    AddSoundEffect(s, b.key, chosen);
  }

  /** Click handlers are not rewired by `refresh_all`: with "SPACE" the stop
      key when the buttons were created and "A" chosen later, the SPACE button
      is painted as unbound but still only shows the stop-key message, so SPACE
      cannot be bound from the keyboard. */
  lemma StaleStopMessage(bindings: map<Key, Path>)
    requires "SPACE" !in bindings
    ensures var space := Repaint(CreateKeyButton("SPACE", "SPACE", bindings), "A", bindings);
      space.look == Unbound && RouteOf(space, "A", bindings) == ShowStopMessage
  {
    UpperIsUpper("SPACE");
    UpperIsUpper("A");
    DisplayTextFirstLine("SPACE", StopKey);
  }

  /** In the same situation the A button is painted as the stop key, and its
      click is dropped by the equality test of `on_key_click`. */
  lemma NewStopKeyClickIgnored(bindings: map<Key, Path>)
    requires "A" !in bindings
    ensures var a := Repaint(CreateKeyButton("A", "SPACE", bindings), "A", bindings);
      a.look == StopKey && RouteOf(a, "A", bindings) == Ignore
  {
    UpperIsUpper("SPACE");
    UpperIsUpper("A");
    DisplayTextFirstLine("A", Unbound);
  }

  /** With a hand-written stop key "space", a SPACE button created as
      clickable is painted as the stop key, yet a click on it opens the file
      dialog: the equality test is case-sensitive. */
  lemma LowerCaseStopKeyClickBinds(bindings: map<Key, Path>)
    requires "SPACE" !in bindings
    ensures var space := Repaint(CreateKeyButton("SPACE", "F1", bindings), "space", bindings);
      space.look == StopKey && RouteOf(space, "space", bindings) == BindNew
  {
    UpperIsUpper("SPACE");
    UpperIsUpper("F1");
    var b := CreateKeyButton("SPACE", "F1", bindings);
    assert b.look == Unbound && b.wiring == Clickable;
    DisplayTextFirstLine("SPACE", Unbound);
    assert Before(b.text, '\n') == "SPACE";
    UpperSpace();
  }

  /** `"space".upper()` is `"SPACE"`. */
  lemma UpperSpace()
    ensures Upper("space") == "SPACE"
  {
    assert Upper("space") == [UpperChar('s')] + Upper("pace");
    assert Upper("pace") == [UpperChar('p')] + Upper("ace");
    assert Upper("ace") == [UpperChar('a')] + Upper("ce");
    assert Upper("ce") == [UpperChar('c')] + Upper("e");
  }

  /** A stop key saved with a lower-case letter (say "space", written by hand
      into `config.json`) can never be pressed, since pressed names are
      upper-cased before the comparison, yet the keyboard paints the
      matching button as the stop key. */
  lemma LowerCaseStopKeyUnreachable(s: State, name: string, key: Key)
    requires !IsUpper(s.stopKey) && Upper(key) == Upper(s.stopKey)
    ensures Upper(name) != s.stopKey
    ensures Classify(key, s.stopKey, s.keySounds) == StopKey
  {
    UpperIsUpper(name);
  }

  /** With an upper-case stop key, a layout key is painted as the stop key
      exactly when pressing it stops playback instead of playing. */
  lemma DisplayAgreesWithPress(s: State, key: Key)
    requires IsUpper(s.stopKey) && key in LayoutKeys
    ensures Classify(key, s.stopKey, s.keySounds) == StopKey <==> Upper(key) == s.stopKey
    ensures Classify(key, s.stopKey, s.keySounds) == StopKey && s.isRunning ==>
      OnKeyboardPress(s, key, false) == StopSound(s)
  {
    LayoutKeysShape();
    UpperIsUpper(key);
    UpperIsUpper(s.stopKey);
  }

  /** The loop of `create_keyboard` (src/gui/keyboard_ui.py:64-93): one button
      per key, in layout order. */
  method CreateButtons(keys: seq<Key>, stopKey: Key, bindings: map<Key, Path>) returns (a: array<KeyButton>)
    ensures fresh(a) && a.Length == |keys|
    ensures forall i :: 0 <= i < |keys| ==> a[i] == CreateKeyButton(keys[i], stopKey, bindings)
  {
    a := new KeyButton[|keys|];
    for i := 0 to |keys|
      invariant forall j :: 0 <= j < i ==> a[j] == CreateKeyButton(keys[j], stopKey, bindings)
    {
      label before:
      a[i] := CreateKeyButton(keys[i], stopKey, bindings);
      assert forall j :: 0 <= j < i ==> a[j] == old@before(a[j]);
    }
  }

  /** The loop of `refresh_all` (src/gui/keyboard_ui.py:228-260): each button is
      repainted from the first line of its own label. */
  method RepaintButtons(a: array<KeyButton>, stopKey: Key, bindings: map<Key, Path>)
    modifies a
    ensures forall i :: 0 <= i < a.Length ==> a[i] == Repaint(old(a[i]), stopKey, bindings)
  {
    for i := 0 to a.Length
      invariant forall j :: 0 <= j < i ==> a[j] == Repaint(old(a[j]), stopKey, bindings)
      invariant forall j :: i <= j < a.Length ==> a[j] == old(a[j])
    {
      var b := a[i];
      var key := Before(b.text, '\n');
      var c := Classify(key, stopKey, bindings);
      a[i] := b.(text := DisplayText(key, c), look := c);
    }
  }

  class KeyboardUI {
    const player: SoundPlayer
    const buttons: array<KeyButton>

    ghost predicate Valid()
      reads this, player, buttons
    {
      && player.Valid()
      && Labelled(buttons[..])
    }

    /** `__init__` and `create_keyboard` (src/gui/keyboard_ui.py:6-93). */
    constructor (player: SoundPlayer)
      requires player.Valid()
      ensures this.player == player && fresh(buttons)
      ensures Valid()
      ensures forall i :: 0 <= i < buttons.Length ==>
        buttons[i] == CreateKeyButton(LayoutKeys[i], player.stopKey, player.keySounds)
    {
      var a := CreateButtons(LayoutKeys, player.stopKey, player.keySounds);
      CreatedLabelled(a[..], player.stopKey, player.keySounds);
      this.player := player;
      buttons := a;
    }

    /** `refresh_all` (src/gui/keyboard_ui.py:225-260). Every button now shows
      its key's class under the player's current stop key and bindings, and
      keeps the click handler it was created with. */
    method RefreshAll()
      requires Valid()
      modifies buttons
      ensures Valid()
      ensures forall i :: 0 <= i < buttons.Length ==>
        buttons[i] == Repaint(old(buttons[i]), player.stopKey, player.keySounds)
      ensures forall i :: 0 <= i < buttons.Length ==>
        && buttons[i].look == Classify(LayoutKeys[i], player.stopKey, player.keySounds)
        && buttons[i].wiring == old(buttons[i].wiring)
    {
      RepaintButtons(buttons, player.stopKey, player.keySounds);
      RepaintAll(old(buttons[..]), buttons[..], player.stopKey, player.keySounds);
    }

    /** `bind_new_sound` (src/gui/keyboard_ui.py:204-214). */
    method BindNewSound(key: Key, chosen: Path)
      requires Valid()
      modifies player, buttons
      ensures Valid()
      ensures player.State() == BindNewSoundOutcome(old(player.State()), key, chosen)
      ensures chosen == "" ==> unchanged(buttons)
      ensures chosen != "" ==> forall i :: 0 <= i < buttons.Length ==>
        buttons[i] == Repaint(old(buttons[i]), player.stopKey, player.keySounds)
    {
      if chosen != "" {
        player.AddSound(key, chosen);
        RefreshAll();
      }
    }

    /** `remove_binding` (src/gui/keyboard_ui.py:216-219): when `remove_sound`
      raises, the refresh does not happen. */
    method RemoveBinding(key: Key)
      requires Valid()
      modifies player, buttons
      ensures Valid()
      ensures player.State() == Engine.RemoveSound(old(player.State()), key)
      ensures RemoveSoundRaises(old(player.State()), key) ==> unchanged(buttons)
      ensures !RemoveSoundRaises(old(player.State()), key) ==> forall i :: 0 <= i < buttons.Length ==>
        buttons[i] == Repaint(old(buttons[i]), player.stopKey, player.keySounds)
    {
      var raised := player.RemoveSound(key);
      if !raised {
        RefreshAll();
      }
    }

    /** A click on button `i` (src/gui/keyboard_ui.py:166-202), followed by the
      menu entry `choice` when a menu opens and by the file `chosen` when a
      file dialog opens. */
    method Click(i: nat, choice: MenuChoice, chosen: Path) returns (route: Route, refreshed: bool)
      requires Valid() && i < buttons.Length
      modifies player, buttons
      ensures Valid()
      ensures route == RouteOf(old(buttons[i]), old(player.stopKey), old(player.keySounds))
      ensures player.State() == ClickOutcome(old(player.State()), old(buttons[i]), choice, chosen)
      ensures refreshed == ClickRefreshes(old(player.State()), old(buttons[i]), choice, chosen)
      ensures !refreshed ==> unchanged(buttons)
      ensures refreshed ==> forall j :: 0 <= j < buttons.Length ==>
        buttons[j] == Repaint(old(buttons[j]), player.stopKey, player.keySounds)
    {
      var b := buttons[i];
      route := RouteOf(b, player.stopKey, player.keySounds);
      refreshed := false;
      match route
      case ShowStopMessage =>
      case Ignore =>
      case BindNew =>
        BindNewSound(b.key, chosen);
        refreshed := chosen != "";
      case OpenMenu =>
        match choice
        case Dismiss =>
        case ReplaceSound =>
          BindNewSound(b.key, chosen);
          refreshed := chosen != "";
        case DeleteBinding =>
          refreshed := !(b.key in player.keySounds && b.key !in player.sounds);
          RemoveBinding(b.key);
    }
  }
}
