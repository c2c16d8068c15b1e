/** The dialogs and settings of the main window (src/gui/main_window.py) that
    change the player: binding a key, choosing the stop key, creating and
    deleting scenes, and the two playback switches. */
module MainWindow {
  import opened Options
  import opened Tables
  import opened Text
  import opened Config
  import opened Engine
  import opened Player
  import opened Keyboard
  import SceneIds

  /** How a key dialog answers one key press (or the button that opens it). */
  datatype DialogResult = ListeningActive | IsStopKey | AlreadyBound | Cancelled | Accepted

  /** The checks of `add_new_sound` and its key handler
      (src/gui/main_window.py:178-180, 211-246); `chosen` is the path from the
      file dialog, empty when it was cancelled. */
  function AddNewSoundResult(s: State, name: string, chosen: Path): DialogResult
  {
    if s.isRunning then ListeningActive
    else
      var key := Upper(name);
      if key == s.stopKey then IsStopKey
      else if key in s.keySounds then AlreadyBound
      else if chosen == "" then Cancelled
      else Accepted
  }

  function AddNewSoundOutcome(s: State, name: string, chosen: Path): (r: State)
    requires Inv(s)
    ensures Inv(r)
  {
    if AddNewSoundResult(s, name, chosen) == Accepted then Engine.AddSound(s, Upper(name), chosen) else s
  }

  /** The dialog binds only a new key that is not the stop key, and only once
      a file was chosen; every other answer leaves the player as it was. */
  lemma AddNewSoundEffect(s: State, name: string, chosen: Path)
    requires Inv(s)
    ensures var r := AddNewSoundOutcome(s, name, chosen); var key := Upper(name);
      && (AddNewSoundResult(s, name, chosen) != Accepted ==> r == s)
      && (AddNewSoundResult(s, name, chosen) == Accepted ==>
            && !s.isRunning && key != s.stopKey && key !in s.keySounds
            && r.keySounds == s.keySounds[key := chosen]
            && |r.keySounds| == |s.keySounds| + 1)
      && (s.stopKey !in s.keySounds ==> s.stopKey !in r.keySounds)
  {
    if AddNewSoundResult(s, name, chosen) == Accepted {
      AddSoundEffect(s, Upper(name), chosen);
    }
  }

  /** The checks of `change_stop_key` and its key handler
      (src/gui/main_window.py:478-480, 511-537). */
  function ChangeStopKeyResult(s: State, name: string): DialogResult
  {
    if s.isRunning then ListeningActive
    else if Upper(name) in s.keySounds then AlreadyBound
    else Accepted
  }

  function ChangeStopKeyOutcome(s: State, name: string): (r: State)
    requires Inv(s)
    ensures Inv(r)
  {
    if ChangeStopKeyResult(s, name) == Accepted then Engine.SaveConfig(s.(stopKey := Upper(name))) else s
  }

  /** A bound key cannot become the stop key. An accepted key becomes the stop
      key, is written to `config.json`, and is used after a restart; bindings
      are unchanged. */
  lemma ChangeStopKeyEffect(s: State, name: string)
    requires Inv(s)
    ensures var r := ChangeStopKeyOutcome(s, name);
      && (ChangeStopKeyResult(s, name) != Accepted ==> r == s)
      && (ChangeStopKeyResult(s, name) == Accepted ==>
            && !s.isRunning
            && r.stopKey == Upper(name) && r.stopKey !in r.keySounds
            && r.keySounds == s.keySounds
            && Config.LoadConfig(r.disk).Ok?
            && Boot(r.disk, s.media).stopKey == Upper(name))
  {
  }

  /** Through both key dialogs the stop key stays unbound in the current scene. */
  lemma DialogsKeepStopKeyUnbound(s: State, name: string, chosen: Path)
    requires Inv(s) && s.stopKey !in s.keySounds
    ensures var r := AddNewSoundOutcome(s, name, chosen); r.stopKey !in r.keySounds
    ensures var r := ChangeStopKeyOutcome(s, name); r.stopKey !in r.keySounds
  {
    AddNewSoundEffect(s, name, chosen);
  }

  /** The stop key is checked against the current scene only: switching to a
      scene that binds it makes a bound stop key, which a press then never
      plays. */
  lemma SwitchCanBindStopKey(s: State, id: SceneId)
    requires Inv(s) && id in s.scenes.entries && id != s.currentScene
    requires s.stopKey in s.scenes.entries[id].keySounds && IsUpper(s.stopKey)
    ensures var r := SwitchScene(s, id);
      s.stopKey in r.keySounds && OnKeyboardPress(r.(isRunning := true), s.stopKey, false).currentPlaying.None?
  {
    SwitchSceneEffect(s, id);
    UpperIsUpper(s.stopKey);
  }

  /** The text the scene name box starts with (src/gui/main_window.py:752). */
  const NamePlaceholder: string := "请输入场景名称"

  /** `on_confirm` accepts a name that is neither blank nor the placeholder
      (src/gui/main_window.py:778-779). */
  predicate SceneNameAccepted(entry: string) {
    var name := Strip(entry);
    name != "" && name != NamePlaceholder
  }

  /** The id `on_confirm` picks (src/gui/main_window.py:780-782). */
  function NewSceneId(s: State): SceneId {
    SceneIds.SceneIdOf(SceneIds.FirstFree(s.scenes.entries.Keys, |s.scenes.keys|))
  }

  function CreateNewSceneOutcome(s: State, entry: string): (r: State)
    requires Inv(s)
    ensures Inv(r)
  {
    if SceneNameAccepted(entry) then AddScene(s, NewSceneId(s), Strip(entry)) else s
  }

  /** A blank entry (spaces only) or the placeholder is refused. Otherwise a
      scene named by the stripped entry is appended under an id not in use,
      and becomes current with no bindings; `add_scene` cannot fail here. */
  lemma CreateNewSceneEffect(s: State, entry: string)
    requires Inv(s)
    ensures (forall i :: 0 <= i < |entry| ==> IsSpace(entry[i])) ==> !SceneNameAccepted(entry)
    ensures !SceneNameAccepted(entry) ==> CreateNewSceneOutcome(s, entry) == s
    ensures SceneNameAccepted(entry) ==> var r := CreateNewSceneOutcome(s, entry); var id := NewSceneId(s);
      && AddSceneOk(s, id)
      && r.currentScene == id
      && r.scenes.keys == s.scenes.keys + [id]
      && LiveScenes(r).entries[id] == Scene(Strip(entry), map[])
      && r.keySounds == map[]
      && (exists n: nat :: n >= |s.scenes.keys| && id == SceneIds.SceneIdOf(n))
  {
    StripEmptyIffBlank(entry);
    if SceneNameAccepted(entry) {
      var n := SceneIds.FirstFree(s.scenes.entries.Keys, |s.scenes.keys|);
      AddSceneEffect(s, NewSceneId(s), Strip(entry));
    }
  }

  /** `delete_scene` (src/gui/main_window.py:854-864) removes the current scene
      once confirmed. */
  function DeleteSceneOutcome(s: State, confirmed: bool): (r: State)
    requires Inv(s)
    ensures Inv(r)
  {
    if confirmed then RemoveScene(s, s.currentScene) else s
  }

  /** Declined, or with a single scene, nothing changes. Otherwise the current
      scene is gone and the first remaining one is current. */
  lemma DeleteSceneEffect(s: State, confirmed: bool)
    requires Inv(s)
    ensures !confirmed || |s.scenes.keys| == 1 ==> DeleteSceneOutcome(s, confirmed) == s
    ensures confirmed && |s.scenes.keys| != 1 ==> var r := DeleteSceneOutcome(s, confirmed);
      && s.currentScene !in r.scenes.entries
      && r.currentScene == Without(s.scenes.keys, s.currentScene)[0]
      && |r.scenes.keys| == |s.scenes.keys| - 1
  {
    RemoveSceneEffect(s, s.currentScene);
  }

  /** `toggle_stop_on_unbound` (src/gui/main_window.py:267-270): `value` is the
      check box. */
  function ToggleStopOnUnboundOutcome(s: State, value: bool): (r: State)
    requires Inv(s)
    ensures Inv(r)
  {
    Engine.SaveConfig(s.(stopOnUnbound := value))
  }

  /** `save_setting` (src/gui/main_window.py:272-276): only
      "long_press_optimize" is recognised, and the configuration is saved
      whatever the name. */
  function SaveSettingOutcome(s: State, setting: string, value: bool): (r: State)
    requires Inv(s)
    ensures Inv(r)
  {
    Engine.SaveConfig(if setting == "long_press_optimize" then s.(longPressOptimize := value) else s)
  }

  /** Both switches take effect at once and survive a restart; an unknown
      setting name changes nothing but still saves. */
  lemma SettingsPersist(s: State, value: bool, setting: string)
    requires Inv(s)
    ensures var r := ToggleStopOnUnboundOutcome(s, value);
      r.stopOnUnbound == value && Config.LoadConfig(r.disk).Ok? && Boot(r.disk, s.media).stopOnUnbound == value
    ensures var r := SaveSettingOutcome(s, setting, value);
      && Config.LoadConfig(r.disk).Ok?
      && (setting == "long_press_optimize" ==>
            r.longPressOptimize == value && Boot(r.disk, s.media).longPressOptimize == value)
      && (setting != "long_press_optimize" ==> r.longPressOptimize == s.longPressOptimize)
  {
  }

  /** The parts of the `GUI` object that act on the player. */
  class GUI {
    const player: SoundPlayer
    const keyboard: KeyboardUI

    ghost predicate Valid()
      reads this, player, keyboard, keyboard.buttons
    {
      keyboard.player == player && keyboard.Valid()
    }

    constructor (player: SoundPlayer)
      requires player.Valid()
      ensures this.player == player && Valid() && fresh(keyboard) && fresh(keyboard.buttons)
    {
      this.player := player;
      keyboard := new KeyboardUI(player);
    }

    /** `add_new_sound` with one key press in its dialog. */
    method AddNewSound(name: string, chosen: Path) returns (result: DialogResult)
      requires Valid()
      modifies player, keyboard.buttons
      ensures Valid()
      ensures result == AddNewSoundResult(old(player.State()), name, chosen)
      ensures player.State() == AddNewSoundOutcome(old(player.State()), name, chosen)
    {
      if player.isRunning {
        return ListeningActive;
      }
      var key := Upper(name);
      if key == player.stopKey {
        return IsStopKey;
      }
      if key in player.keySounds {
        return AlreadyBound;
      }
      if chosen == "" {
        return Cancelled;
      }
      player.AddSound(key, chosen);
      keyboard.RefreshAll();
      return Accepted;
    }

    /** `change_stop_key` with one key press in its dialog. */
    method ChangeStopKey(name: string) returns (result: DialogResult)
      requires Valid()
      modifies player, keyboard.buttons
      ensures Valid()
      ensures result == ChangeStopKeyResult(old(player.State()), name)
      ensures player.State() == ChangeStopKeyOutcome(old(player.State()), name)
    {
      if player.isRunning {
        return ListeningActive;
      }
      var key := Upper(name);
      if key in player.keySounds {
        return AlreadyBound;
      }
      player.stopKey := key;
      player.SaveConfig();
      keyboard.RefreshAll();
      return Accepted;
    }

    /** `toggle_stop_on_unbound` (src/gui/main_window.py:267-270). */
    method ToggleStopOnUnbound(value: bool)
      requires Valid()
      modifies player
      ensures Valid()
      ensures player.State() == ToggleStopOnUnboundOutcome(old(player.State()), value)
    {
      player.stopOnUnbound := value;
      player.SaveConfig();
    }

    /** `save_setting` (src/gui/main_window.py:272-276). */
    method SaveSetting(setting: string, value: bool)
      requires Valid()
      modifies player
      ensures Valid()
      ensures player.State() == SaveSettingOutcome(old(player.State()), setting, value)
    {
      if setting == "long_press_optimize" {
        player.longPressOptimize := value;
      }
      player.SaveConfig();
    }

    /** `on_confirm` of `create_new_scene` (src/gui/main_window.py:777-789):
      the id of the new scene, or `None` when the name is refused. */
    method CreateNewScene(entry: string) returns (id: Option<SceneId>)
      requires Valid()
      modifies player, keyboard.buttons
      ensures Valid()
      ensures id.Some? <==> SceneNameAccepted(entry)
      ensures id.Some? ==> id.value == NewSceneId(old(player.State()))
      ensures player.State() == CreateNewSceneOutcome(old(player.State()), entry)
    {
      var name := Strip(entry);
      if name == "" || name == NamePlaceholder {
        return None;
      }
      var sceneId := SceneIds.FreshSceneId(player.scenes.entries.Keys, |player.scenes.keys|);
      AddSceneAndRefresh(sceneId, name);
      return Some(sceneId);
    }

    /** `add_scene` followed, on success, by the keyboard refresh
      (src/gui/main_window.py:784-787). */
    method AddSceneAndRefresh(sceneId: SceneId, name: string)
      requires Valid()
      modifies player, keyboard.buttons
      ensures Valid()
      ensures player.State() == Engine.AddScene(old(player.State()), sceneId, name)
    {
      var ok := player.AddScene(sceneId, name);
      if ok {
        keyboard.RefreshAll();
      }
    }

    /** `delete_scene` (src/gui/main_window.py:854-864); `confirmed` is the
      answer to the confirmation box. */
    method DeleteScene(confirmed: bool) returns (ok: bool)
      requires Valid()
      modifies player, keyboard.buttons
      ensures Valid()
      ensures ok == (confirmed && RemoveSceneOk(old(player.State()), old(player.currentScene)))
      ensures player.State() == DeleteSceneOutcome(old(player.State()), confirmed)
    {
      if !confirmed {
        return false;
      }
      ok := player.RemoveScene(player.currentScene);
      if ok {
        keyboard.RefreshAll();
      }
    }
  }
}
