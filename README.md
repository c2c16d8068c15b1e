# Lemon Key Sound Assistant — a Dafny model of the key-to-sound engine

Lemon Key Sound Assistant plays a sound file when a key is pressed anywhere on
the desktop. Keys are bound to audio files. Bindings are grouped into named
*scenes*, of which one is current. A *stop key* silences playback. Two
switches change how presses behave:

- *stop on unbound*: a key without a binding stops playback;
- *long-press optimisation*: a key held down does not retrigger its sound.

Everything is persisted in `config.json`.

This project models:

- the `SoundPlayer` engine (`src/core/sound_player.py`);
- the loading and migration of the configuration document (`src/core/config.py`);
- the decision rules of two GUI files:
  - the dialogs and settings of the main window (`src/gui/main_window.py`);
  - the on-screen keyboard (`src/gui/keyboard_ui.py`).

## Layout

| file | module | contents |
|---|---|---|
| `options.dfy` | `Options` | `Option` and `Result` |
| `text.dfy` | `Text` | `str.upper` (ASCII), `str.strip`, and the `split(c)[0]` / `split(c, 1)[1]` fragments |
| `tables.dfy` | `Tables` | Python's insertion-ordered `dict` as a key sequence plus a map |
| `scene_ids.dfy` | `SceneIds` | the `scene_<n>` ids and the loop that searches for a free one |
| `config.dfy` | `Config` | `ConfigManager`: the document, the legacy migration, the defaults, and the write |
| `engine.dfy` | `Engine` | the player as a state value, one function per operation, and the lemmas |
| `player.dfy` | `Player` | the `SoundPlayer` class with in-place methods, each proved to compute its `Engine` function |
| `keyboard_ui.dfy` | `Keyboard` | key classification, labels, click routing, and the `KeyboardUI` class with its array of buttons |
| `main_window.dfy` | `MainWindow` | the dialog callbacks and setting switches, and a `GUI` class over the player and the keyboard |

### How the player is modelled

**State.** `Engine.State` holds the player's fields, plus three things outside the object:

- `disk`: the contents of `config.json`;
- `audio`: the history of requests to the mixer (`Started`, `Stopped`), plus `Drained` when the mixer reports it is idle;
- `media`: the set of files that `pygame.mixer.Sound` can open. `Loadable(media, path)` stands for that call succeeding.

**Monophony.** `Playing(audio)` is the set of sounds the mixer is playing. The invariant `Engine.Inv` requires:

- the current scene exists;
- every handle belongs to a bound key and comes from a loadable file;
- the mixer plays nothing except `current_playing`.

Every operation carries `Inv(s) ==> Inv(r)`, except the as-written `import_config` (see Findings). So the invariant holds in every state reachable with `import_config` corrected.

**Aliasing.** In the source, `key_sounds` is the same dict object as
`scenes[current_scene]['key_sounds']`. The model keeps the active bindings in
their own field. `LiveScenes` is the view that every reader of `scenes` gets:
the scenes with the active bindings written into the current one. Committing
happens explicitly, as the source does at lines 68, 220 and 310.

**Class and spec functions.** The class `Player.SoundPlayer` updates its fields
in place. Each of its methods ensures `State() == Engine.X(old(State()), …)`,
so every lemma about `Engine.X` is a statement about the method.

**Audio completion.** The 100 ms poll for completion becomes the `SoundFinished`
event. The environment calls it when the mixer has gone idle.

**Dialog focus.** Whether a dialog has the focus is a boolean parameter of the press handler.

## Model

| member | source | states |
|---|---|---|
| Config.LoadConfig | src/core/config.py:6-37 | loading fails exactly on an unparseable file; a stored document already in the scene layout comes back unchanged; a successful load never yields a legacy document |
| Config.MigrationShape | src/core/config.py:11-23 | a legacy document becomes one scene "default" named 默认场景, holding exactly its bindings, made current; the three settings are kept if present, else "SPACE", true, true |
| Config.MissingFileShape | src/core/config.py:25-37 | a missing file gives one empty scene "default", made current, with the default settings |
| Config.CurrentLayoutUntouched | src/core/config.py:11-24 | a document with `scenes`, or without `key_sounds`, is returned as is, with no defaults filled in |
| Config.SaveLoadRoundTrip | src/core/config.py:40-42 | load after save returns a document of the current layout, migrates a legacy one, and a second round trip changes nothing |
| Text.Upper | src/core/sound_player.py:169 | each character is upper-cased (ASCII letters only), and the length is kept |
| Text.UpperIdempotent | src/core/sound_player.py:195 | normalising a key name twice is the same as normalising it once |
| Text.StripEmptyIffBlank | src/gui/main_window.py:778-779 | the stripped name is empty exactly when the entry is all whitespace, and otherwise neither starts nor ends with whitespace |
| Text.BeforeOf | src/gui/keyboard_ui.py:234 | `split('\n')[0]` of `p + "\n" + q` is `p` when `p` has no line break |
| Tables.Remove | src/core/sound_player.py:258 | deleting a scene removes exactly that key, keeps the order of the others, and shrinks the table by one |
| Tables.WithoutDistinct | src/core/sound_player.py:258-263 | removing a key from a duplicate-free key order keeps it duplicate-free and shortens it by one |
| Tables.EmptyIffNoKeys | src/core/sound_player.py:49 | `not self.scenes` holds exactly when the table has no keys |
| SceneIds.ParseDigits | src/core/sound_player.py:295 | `int(...)` of the decimal notation of n is n |
| SceneIds.NextIdOf | src/core/sound_player.py:295 | one step of the id loop goes from `scene_n` to `scene_{n+1}` |
| SceneIds.SceneIdInjective | src/core/sound_player.py:293-295 | different numbers give different ids |
| SceneIds.FirstFree | src/core/sound_player.py:293-295 | the number where the search stops is at least the start, its id is free, and every id before it is taken |
| SceneIds.FreshSceneId | src/gui/main_window.py:780-782 | the loop ends, and returns an id not in use: the first free one counting up from the number of scenes |
| Engine.Monophonic | src/core/sound_player.py:88-126 | in any state satisfying `Inv` at most one sound plays, and none when nothing is current. Every operation preserves `Inv` (the as-written `import_config` excepted, see Findings), so this holds in every state reachable with `import_config` corrected |
| Engine.Booted | src/core/sound_player.py:43-63 | `load_config` always leaves a current scene that exists, and no handle loaded yet |
| Engine.Boot | src/core/sound_player.py:9-63 | start-up from any loadable file satisfies the invariant |
| Engine.BootShape | src/core/sound_player.py:46-63 | start-up always yields a current scene; with no scenes it creates an empty "scene_1"; a valid non-empty current scene from the document is kept; the player starts idle and not listening |
| Engine.SaveConfig | src/core/sound_player.py:65-77 | saving commits the active bindings into the current scene and writes a document that loads back as the snapshot; nothing else changes |
| Engine.SavedSnapshot | src/core/sound_player.py:65-77 | after a save, `config.json` loads back as the snapshot of the state the save leaves, so memory and disk agree |
| Engine.SaveRestartRoundTrip | src/core/sound_player.py:43-77 | restarting from what was saved restores the scenes, the current scene, its bindings and the settings, and reloads the handles of those bindings, so a handle kept by a failed `add_sound` is dropped (except for an empty current id that is not the first scene) |
| Player.SoundPlayer.LoadSounds | src/core/sound_player.py:32-41 | the loop adds a handle for exactly the bindings whose file loads, and nothing else changes |
| Engine.PlaySoundEffect | src/core/sound_player.py:88-104 | an unknown key changes nothing; otherwise the previous sound is stopped first and the held keys cleared, then the key's sound is current and the key is held |
| Engine.PlayThenPlay | src/core/sound_player.py:88-104 | after playing k1 then k2, only k2's sound plays and only k2 is held |
| Engine.StopSound | src/core/sound_player.py:121-126 | afterwards nothing is current, no key is held, and the mixer is silent |
| Engine.StopSoundIdempotent | src/core/sound_player.py:121-126 | stopping twice is the same as stopping once |
| Engine.SoundFinishedEffect | src/core/sound_player.py:107-111 | the poll clears the current sound and the held keys; a stale poll finding nothing current changes nothing, so repeated polls act as one |
| Engine.PressIgnoredWhenInactive | src/core/sound_player.py:164-173 | presses change nothing while not listening or while a dialog has the focus |
| Engine.StopKeyNeverPlays | src/core/sound_player.py:175-183 | the stop key stops playback and starts no sound, even when it is bound |
| Engine.UnboundKeyPress | src/core/sound_player.py:198-208 | an unbound key stops playback if and only if stop-on-unbound is set, and starts nothing |
| Engine.BoundKeyPress | src/core/sound_player.py:185-203 | a bound, loaded, unsuppressed key starts its sound exactly once and is held |
| Engine.HeldKeyActsOnce | src/core/sound_player.py:185-191 | with long-press optimisation, pressing a held key changes nothing, so [A, A, A] acts as one press and starts at most one sound |
| Engine.RepeatRestartsWithoutLongPress | src/core/sound_player.py:185-191 | without long-press optimisation every repeated press starts the sound again |
| Engine.ReleaseEffect | src/core/sound_player.py:193-196 | release removes the key from the held set, held or not, and changes nothing else |
| Engine.ToggleRunningEffect | src/core/sound_player.py:141-162 | turning listening off clears the held keys and silences the mixer; turning it on changes only the flag |
| Engine.AddSoundEffect | src/core/sound_player.py:79-86 | the binding is always recorded; if the file loads, the key gets its new handle and `config.json` loads back as the snapshot of the new state; if not, the key keeps its old handle and nothing is saved |
| Engine.FailedAddDroppedBySwitch | src/core/sound_player.py:79-86 | a failed `add_sound` over a key with a handle keeps the old handle under the new binding; switching away and back (lines 222-226 reload from the bindings) leaves the key with no handle |
| Engine.FailedAddDroppedByRestart | src/core/sound_player.py:79-86 | the handle kept by a failed `add_sound` is lost on a restart from the next save, since start-up loads handles only from the saved bindings |
| Engine.AddSoundTwice | src/core/sound_player.py:82 | binding a key twice leaves the second path |
| Engine.AddThenRemove | src/core/sound_player.py:79-133 | binding a new key to a loadable file and removing it restores the bindings and the handles |
| Engine.RemoveSoundEffect | src/core/sound_player.py:128-133 | the key loses its binding and its handle; it raises exactly when it was bound without a handle, and then nothing is saved; when the key had a handle, `config.json` loads back as the snapshot of the new state; an unbound key changes nothing |
| Player.SoundPlayer.RemoveSound | src/core/sound_player.py:128-133 | reports the KeyError of line 132 exactly when the key was bound but never loaded |
| Engine.EnterScene | src/core/sound_player.py:222-226 | the entered scene is current, with its own bindings and only their handles |
| Engine.SwitchSceneEffect | src/core/sound_player.py:216-230 | an unknown id fails with no change; a known one becomes current with its bindings and freshly loaded handles, no scene's bindings are lost, and `config.json` loads back as the snapshot of the new state |
| Engine.SwitchRoundTrip | src/core/sound_player.py:216-230 | switching A→B→A restores A's bindings and every scene, and reloads the handles of A's bindings, so a handle kept by a failed `add_sound` is dropped |
| Engine.AddSceneEffect | src/core/sound_player.py:232-243 | an existing id fails with no change; a new id is appended as an empty scene and made current, the other scenes are kept, and `config.json` loads back as the snapshot of the new state |
| Engine.RemoveSceneEffect | src/core/sound_player.py:245-272 | the last scene or an unknown id is refused with no change; otherwise the scene is gone, at least one remains, and removing the current scene makes the first remaining one current with its bindings and reloads its handles; removing another scene keeps the current scene and its handles; every remaining scene holds its live bindings (the current scene's active bindings committed); the saved document is the snapshot of the new state |
| Engine.AtLeastOneScene | src/core/sound_player.py:245-251 | any state satisfying `Inv` has at least one scene. Every operation preserves `Inv`, so this holds in every reachable state with `import_config` corrected (the as-written one can leave no scenes, see Findings) |
| Engine.ExportScene | src/core/sound_player.py:274-284 | a scene is exported exactly when it exists, and the current scene is exported with its live bindings |
| Engine.ImportSceneEffect | src/core/sound_player.py:286-304 | only an object with `name` and `key_sounds` is accepted; the new id `scene_n` has n ≥ the number of scenes and was not in use; it holds the file's name and bindings; the current scene and the other scenes are unchanged; `config.json` loads back as the snapshot of the new state |
| Engine.ExportImportScene | src/core/sound_player.py:274-299 | exporting a scene and importing the file adds a copy of it under a new id |
| Engine.ExportConfig | src/core/sound_player.py:306-318 | export commits the active bindings into `scenes`, changes no other field (current scene, bindings, handles, settings, `config.json`), and leaves the saved document's snapshot unchanged |
| Player.SoundPlayer.ExportConfig | src/core/sound_player.py:306-325 | returns the document made of the live scenes, the current scene and the three settings |
| Engine.ImportConfigNeedsAllFields | src/core/sound_player.py:333-337 | a document missing any of the five top-level fields is refused with no change |
| Engine.ExportImportConfig | src/core/sound_player.py:306-356 | importing the exported document restores the scenes, the current scene, its bindings and the settings, and reloads the handles of those bindings; the saved `config.json` loads back as the exported document |
| Engine.ImportConfigAsWrittenBreaksInvariant | src/core/sound_player.py:339-342 | a complete document whose current scene is not among its scenes leaves the player, as written, with a current scene that does not exist; the corrected import leaves it unchanged |
| Engine.ImportConfigAsWrittenExample | src/core/sound_player.py:339-342 | the same, for a player on the default scene importing a document with current scene "b" and no scenes |
| Keyboard.LayoutKeysShape | src/gui/keyboard_ui.py:29-60 | the layout has 59 keys, each non-empty, with no line break and no lower-case letter |
| Keyboard.Classify | src/gui/keyboard_ui.py:106-121 | the stop-key class applies exactly when the upper-cased key equals the upper-cased stop key; a key is bound only when it is not the stop key, so the stop key wins over a binding |
| Keyboard.CreateKeyButton | src/gui/keyboard_ui.py:95-175 | a button shows its key's class and is wired to the stop-key message exactly when it is the stop key |
| Keyboard.DisplayTextFirstLine | src/gui/keyboard_ui.py:234 | the first line of a label is its key, with or without the stop-key mark |
| Keyboard.RepaintShowsState | src/gui/keyboard_ui.py:232-260 | repainting a button gives the label and colours of a freshly created one, while keeping its click handler |
| Keyboard.RepaintAll | src/gui/keyboard_ui.py:225-260 | after repainting all buttons, each one shows its own key's class and keeps its handler |
| Keyboard.CreateButtons | src/gui/keyboard_ui.py:64-93 | the loop creates one button per key, in layout order, each painted and wired for its key |
| Keyboard.RepaintButtons | src/gui/keyboard_ui.py:228-260 | the loop repaints every button from its own label and touches nothing else |
| Keyboard.KeyboardUI.RefreshAll | src/gui/keyboard_ui.py:225-260 | the loop repaints every button from its label's first line, so each shows its layout key's class under the current stop key and bindings, and no handler changes |
| Keyboard.ClickTouchesOnlyItsKey | src/gui/keyboard_ui.py:177-219 | a click on the stop key's button, or on one wired to the message, changes nothing; any other click binds, rebinds or removes only that button's key; the stop key is never bound by a click |
| Keyboard.MenuReplaceOverwrites | src/gui/keyboard_ui.py:198 | choosing a file from a bound key's menu overwrites that key's binding |
| Keyboard.KeyboardUI.Click | src/gui/keyboard_ui.py:166-219 | the click follows the route of the button's handler; the display is refreshed exactly after a chosen file or a removal that did not raise, and is otherwise left alone |
| Keyboard.KeyboardUI.BindNewSound | src/gui/keyboard_ui.py:204-214 | `add_sound` and the refresh happen only when a file was chosen |
| Keyboard.KeyboardUI.RemoveBinding | src/gui/keyboard_ui.py:216-219 | removes exactly that key's binding; the refresh is skipped when `remove_sound` raises |
| Keyboard.StaleStopMessage | src/gui/keyboard_ui.py:166-173 | after the stop key moves away from SPACE, the SPACE button is painted as unbound but still only shows the stop-key message |
| Keyboard.NewStopKeyClickIgnored | src/gui/keyboard_ui.py:177-181 | the new stop key's button is painted as the stop key, and its click is dropped by the equality test |
| Keyboard.LowerCaseStopKeyClickBinds | src/gui/keyboard_ui.py:180 | with a stop key saved as "space", a SPACE button created as clickable is painted as the stop key but its click opens the file dialog |
| Keyboard.LowerCaseStopKeyUnreachable | src/core/sound_player.py:169-176 | a stop key containing a lower-case letter never equals an upper-cased key name, so it can never be pressed, yet its button is painted as the stop key |
| Keyboard.DisplayAgreesWithPress | src/gui/keyboard_ui.py:108 | with an upper-case stop key, a layout key is painted as the stop key exactly when pressing it stops playback |
| MainWindow.AddNewSoundEffect | src/gui/main_window.py:175-246 | the dialog refuses to open while listening; it refuses the stop key and bound keys; it binds only when a file was chosen, adding exactly that one new key; the stop key stays unbound |
| MainWindow.GUI.AddNewSound | src/gui/main_window.py:211-246 | the answer to a key press is the one the rules give, and the player ends in the matching state |
| MainWindow.ChangeStopKeyEffect | src/gui/main_window.py:475-537 | a key is accepted only when not listening and when it has no sound; anything else changes nothing; an accepted key becomes the stop key, is saved, survives a restart, and leaves the bindings alone |
| MainWindow.DialogsKeepStopKeyUnbound | src/gui/main_window.py:218-233 | neither key dialog binds the stop key in the current scene |
| MainWindow.SwitchCanBindStopKey | src/gui/main_window.py:518 | the stop key is checked only against the current scene, so switching to a scene that binds it gives a bound stop key that a press never plays |
| MainWindow.CreateNewSceneEffect | src/gui/main_window.py:777-789 | a blank entry or the placeholder is refused; otherwise a scene named by the stripped entry is appended under an unused id `scene_n` with n ≥ the number of scenes, becomes current with no bindings, and `add_scene` cannot fail |
| MainWindow.GUI.CreateNewScene | src/gui/main_window.py:777-789 | returns a new id exactly when the name is accepted, namely the first free one |
| MainWindow.GUI.AddSceneAndRefresh | src/gui/main_window.py:784-786 | the player ends as `add_scene` leaves it, and the keyboard is repainted only when the scene was added |
| MainWindow.DeleteSceneEffect | src/gui/main_window.py:854-864 | declined, or with one scene left, nothing changes; otherwise the current scene is removed and the first remaining scene becomes current |
| MainWindow.GUI.DeleteScene | src/gui/main_window.py:854-864 | reports success exactly when the deletion was confirmed and the current scene could be removed |
| MainWindow.SettingsPersist | src/gui/main_window.py:267-276 | both switches take effect at once, are saved, and survive a restart; a setting name other than `long_press_optimize` leaves that option alone |

In `Player.SoundPlayer`, every other method has the postcondition
`State() == Engine.X(old(State()), …)`, and so does every method in
`MainWindow.GUI`. Each of these rows is then stated by the lemma about that
function.

## Left out

- pygame: mixer initialisation, decoding, and the real `get_busy`. Handles are opaque `Sound(path)` values. `Loadable` stands for `os.path.exists` together with `pygame.mixer.Sound` succeeding. `SoundFinished` stands for the poll that finds the mixer idle.
- The global keyboard hook: `keyboard.on_press`/`on_release` and `unhook`. Presses and releases are serialised calls, and the dialogs' own hooks are one call per key.
- Timers, status texts, message boxes, colours and widget geometry, including the layout's width multipliers.
- JSON and file I/O. The files of `export_scene`/`export_config` are values: `SceneFileOf` and the document that `ExportConfig` returns. Their write errors are not modelled. `import_scene` keeps only the `name` and `key_sounds` of the object it stores, and does not check their types.
- Player.SoundPlayer.constructor: requires a file that parses, because a JSON syntax error escapes `__init__` uncaught and the program stops.
- `set_gui_elements`, `gui is None` guards, the tray icon, window show/hide, the help window, styles and `main.py`. The `import_scene`/`export_scene` buttons of the main window only pick a file path and call `import_config`/`export_config`. `src/utils/resource.py` is not part of this model.
- Text.Upper: maps only ASCII letters, whereas `str.upper` also maps other scripts (and `'ß'` to `"SS"`).
- Keyboard.KeyboardUI.constructor: builds the buttons in one pass over the flattened rows, not row by row.
- Engine.ExportScene and Engine.ExportConfig: do not model a failed write returning False.
- Engine.SwitchRoundTrip and Engine.ExportImportConfig: the set of loadable files (`media`) does not change while the program runs. The source checks `os.path.exists` and `pygame.mixer.Sound` at every load, so a file created or deleted between two loads is not modelled. The claims that handles are reloaded from the bindings rely on this.

## Findings

| source | as written | input that shows it | evidently intended | confidence | as-written member | corrected member |
|---|---|---|---|---|---|---|
| src/core/sound_player.py:340-342 | `scenes` and `current_scene` are assigned before `scenes[current_scene]` is looked up, and the KeyError is caught | a document with all five fields whose `current_scene` is not a key of `scenes` (e.g. "b" with no scenes) | validate before assigning, and leave the player unchanged when the lookup fails | not executed | Engine.ImportConfigAsWritten (shown by Engine.ImportConfigAsWrittenExample) | Engine.ImportConfig |
