/** The key-to-sound engine of SoundPlayer (src/core/sound_player.py) as a
    state machine over values: one `State` per snapshot of the player's fields,
    one function per operation, and lemmas relating them. The class
    `Player.SoundPlayer` runs the same operations in place and is proved to
    agree with these functions. */
module Engine {
  import opened Options
  import opened Tables
  import opened Text
  import opened Config
  import SceneIds

  /** A loaded `pygame.mixer.Sound`, known only by the file it came from. */
  datatype Sound = Sound(path: Path)

  /** What the player tells the mixer (`play`, `stop`), and the one thing it
      learns from it: that nothing is playing any more (`get_busy()` false). */
  datatype MixerEvent = Started(sound: Sound) | Stopped(sound: Sound) | Drained

  /** The sounds the mixer is playing after a history of events. */
  function Playing(log: seq<MixerEvent>): (playing: set<Sound>)
  {
    if log == [] then {}
    else
      var p := Playing(log[..|log| - 1]);
      match log[|log| - 1]
      case Started(x) => p + {x}
      case Stopped(x) => p - {x}
      case Drained => {}
  }

  /** How many times playback was started in a history. */
  function StartCount(log: seq<MixerEvent>): (n: nat)
  {
    if log == [] then 0
    else StartCount(log[..|log| - 1]) + (if log[|log| - 1].Started? then 1 else 0)
  }

  lemma PlayingAppend(log: seq<MixerEvent>, e: MixerEvent)
    ensures e.Started? ==> Playing(log + [e]) == Playing(log) + {e.sound}
    ensures e.Stopped? ==> Playing(log + [e]) == Playing(log) - {e.sound}
    ensures e.Drained? ==> Playing(log + [e]) == {}
    ensures StartCount(log + [e]) == StartCount(log) + if e.Started? then 1 else 0
  {
    assert (log + [e])[..|log|] == log;
  }

  /** Whether `pygame.mixer.Sound(path)` succeeds: `media` is the set of files
      the mixer can open. */
  predicate Loadable(media: set<Path>, path: Path) {
    path in media
  }

  /** The fields of a SoundPlayer, plus the contents of `config.json` (`disk`),
      the history of mixer events (`audio`) and the loadable files (`media`). */
  datatype State = State(
    scenes: Table<SceneId, Scene>,
    currentScene: SceneId,
    keySounds: map<Key, Path>,
    sounds: map<Key, Sound>,
    currentPlaying: Option<Sound>,
    pressedKeys: set<Key>,
    isRunning: bool,
    stopKey: Key,
    stopOnUnbound: bool,
    longPressOptimize: bool,
    disk: StoredFile,
    audio: seq<MixerEvent>,
    media: set<Path>)

  function AsSet(o: Option<Sound>): set<Sound> {
    if o.Some? then {o.value} else {}
  }

  /** What every reachable state satisfies: the current scene exists (so at
      least one scene does), every handle belongs to a bound key and was loaded
      from a loadable file, and the mixer plays nothing but `current_playing`. */
  ghost predicate Inv(s: State) {
    && s.currentScene in s.scenes.entries
    && s.sounds.Keys <= s.keySounds.Keys
    && (forall k :: k in s.sounds ==> Loadable(s.media, s.sounds[k].path))
    && Playing(s.audio) <= AsSet(s.currentPlaying)
  }

  /** Monophony: at most one sound plays, and none when nothing is current.
      This follows from `Inv` directly; that it holds throughout a run is the
      `Inv(s) ==> Inv(r)` clause every operation carries. */
  lemma Monophonic(s: State)
    requires Inv(s)
    ensures |Playing(s.audio)| <= 1
    ensures s.currentPlaying.None? ==> Playing(s.audio) == {}
  {
    var p := Playing(s.audio);
    if s.currentPlaying.Some? {
      assert p == {} || p == {s.currentPlaying.value};
    }
  }

  /** The handles `load_sounds` opens for a binding map (src/core/sound_player.py:32-41). */
  function LoadedSounds(bindings: map<Key, Path>, media: set<Path>): (handles: map<Key, Sound>)
  {
    map k | k in bindings && Loadable(media, bindings[k]) :: Sound(bindings[k])
  }

  /** Loading one more binding on top of earlier handles `base` adds at most
      that key's handle. */
  lemma LoadStep(base: map<Key, Sound>, bindings: map<Key, Path>, rest: set<Key>, key: Key, media: set<Path>)
    requires key in rest && rest <= bindings.Keys
    ensures base + LoadedSounds(bindings - (rest - {key}), media)
         == if Loadable(media, bindings[key])
            then (base + LoadedSounds(bindings - rest, media))[key := Sound(bindings[key])]
            else base + LoadedSounds(bindings - rest, media)
  {
    var before := LoadedSounds(bindings - rest, media);
    var after := LoadedSounds(bindings - (rest - {key}), media);
    if Loadable(media, bindings[key]) {
      assert after == before[key := Sound(bindings[key])];
    } else {
      assert after == before;
    }
  }

  /** The scenes with the active bindings written into the current scene
      (src/core/sound_player.py:68, 220, 310). In the source the two are the
      same dict object, so this is also the view every reader of `scenes` gets. */
  function LiveScenes(s: State): (t: Table<SceneId, Scene>)
    requires s.currentScene in s.scenes.entries
    ensures t.keys == s.scenes.keys
    ensures t.entries.Keys == s.scenes.entries.Keys
    ensures t.entries[s.currentScene].keySounds == s.keySounds
  {
    Put(s.scenes, s.currentScene, s.scenes.entries[s.currentScene].(keySounds := s.keySounds))
  }

  /** The document `save_config` and `export_config` write. */
  function Snapshot(s: State): (d: Document)
    requires s.currentScene in s.scenes.entries
    ensures Complete(d) && CurrentIsScene(d) && !IsLegacy(d)
  {
    Document(Some(s.currentScene), Some(LiveScenes(s)), None,
             Some(s.stopKey), Some(s.stopOnUnbound), Some(s.longPressOptimize))
  }

  /** `save_config` (src/core/sound_player.py:65-77): commit, then write `config.json`. */
  function SaveConfig(s: State): (r: State)
    requires s.currentScene in s.scenes.entries
    ensures r == s.(scenes := LiveScenes(s), disk := r.disk)
    ensures Config.LoadConfig(r.disk) == Ok(Snapshot(s))
    ensures LiveScenes(r) == LiveScenes(s)
    ensures Inv(s) ==> Inv(r)
  {
    PutSame(LiveScenes(s), s.currentScene);
    s.(scenes := LiveScenes(s), disk := Config.SaveConfig(Snapshot(s)))
  }

  // ---------------------------------------------------------------- start-up

  /** The scenes `load_config` keeps: those of the document, or a single empty
      scene "scene_1" when there are none (src/core/sound_player.py:46-53). */
  function BootScenes(d: Document): (t: Table<SceneId, Scene>)
    ensures |t.keys| > 0
  {
    var t := d.scenes.GetOr(Empty());
    if |t.keys| == 0 then Put(t, "scene_1", Scene(DefaultSceneName, map[])) else t
  }

  /** The document's current scene if it is a non-empty id of a kept scene,
      else the first scene (src/core/sound_player.py:56-58). */
  function BootCurrent(d: Document, t: Table<SceneId, Scene>): (c: SceneId)
    requires |t.keys| > 0
    ensures c in t.entries
  {
    if d.currentScene.None? || d.currentScene.value == "" || d.currentScene.value !in t.entries
    then First(t) else d.currentScene.value
  }

  /** The state `__init__` and `load_config` build from `config.json`, before
      any handle is loaded (src/core/sound_player.py:9-30, 43-63). */
  function Booted(file: StoredFile, media: set<Path>): (s: State)
    requires Config.LoadConfig(file).Ok?
    ensures s.currentScene in s.scenes.entries && s.sounds == map[]
  {
    var d := Config.LoadConfig(file).value;
    var t := BootScenes(d);
    var c := BootCurrent(d, t);
    State(t, c, t.entries[c].keySounds, map[], None, {}, false,
          d.stopKey.GetOr(DefaultStopKey), d.stopOnUnbound.GetOr(true), d.longPressOptimize.GetOr(true),
          file, [], media)
  }

  /** The state `SoundPlayer.__init__` leaves: `load_sounds` has opened the
      handles of the current scene (src/core/sound_player.py:9-63). */
  function Boot(file: StoredFile, media: set<Path>): (s: State)
    requires Config.LoadConfig(file).Ok?
    ensures Inv(s)
  {
    var b := Booted(file, media);
    b.(sounds := LoadedSounds(b.keySounds, media))
  }

  /** Start-up always yields a scene to work in: a document without scenes gets
      "scene_1", and a missing, empty or unknown current scene falls back to the
      first scene; the player starts idle and not listening. */
  lemma BootShape(file: StoredFile, media: set<Path>)
    requires Config.LoadConfig(file).Ok?
    ensures var s := Boot(file, media); var d := Config.LoadConfig(file).value;
      && |s.scenes.keys| >= 1
      && s.currentScene in s.scenes.entries
      && (d.scenes.None? || d.scenes.value.entries == map[] ==>
            s.scenes.keys == ["scene_1"] && s.currentScene == "scene_1" && s.keySounds == map[])
      && ((d.currentScene.Some? && d.currentScene.value != "" && d.scenes.Some?
             && d.currentScene.value in d.scenes.value.entries) ==> s.currentScene == d.currentScene.value)
      && s.keySounds == s.scenes.entries[s.currentScene].keySounds
      && !s.isRunning && s.currentPlaying.None? && s.pressedKeys == {}
  {
    var d := Config.LoadConfig(file).value;
    if d.scenes.Some? {
      EmptyIffNoKeys(d.scenes.value);
    }
  }

  /** After any save, starting again from `config.json` restores the scenes,
      the current scene, its bindings and the settings, and reloads the
      handles of those bindings (a handle kept by a failed `add_sound` is
      dropped, see `FailedAddDroppedByRestart`). The exception is an
      empty current scene id that is not the first scene: `load_config` treats
      "" as missing. */
  lemma {:induction false} SaveRestartRoundTrip(s: State)
    requires Inv(s)
    requires s.currentScene != "" || s.currentScene == First(s.scenes)
    ensures var b := Boot(SaveConfig(s).disk, s.media);
      && b.scenes == LiveScenes(s)
      && b.currentScene == s.currentScene
      && b.keySounds == s.keySounds
      && b.sounds == LoadedSounds(s.keySounds, s.media)
      && b.stopKey == s.stopKey && b.stopOnUnbound == s.stopOnUnbound
      && b.longPressOptimize == s.longPressOptimize
  {
    var d := Snapshot(s);
    assert Config.LoadConfig(SaveConfig(s).disk) == Ok(d);
    assert |LiveScenes(s).keys| > 0 by {
      EmptyIffNoKeys(LiveScenes(s));
    }
    assert BootScenes(d) == LiveScenes(s);
  }

  // ---------------------------------------------------------------- playback

  /** `play_sound` (src/core/sound_player.py:88-104): a key with a handle stops
      whatever plays, clears the held keys, and starts its own sound. */
  function PlaySound(s: State, key: Key): (r: State)
    ensures Inv(s) ==> Inv(r)
  {
    if key !in s.sounds then s
    else
      var h := s.sounds[key];
      if s.currentPlaying.Some? then
        var log := s.audio + [Stopped(s.currentPlaying.value)];
        PlayingAppend(s.audio, Stopped(s.currentPlaying.value));
        PlayingAppend(log, Started(h));
        s.(audio := log + [Started(h)], currentPlaying := Some(h), pressedKeys := {key})
      else
        PlayingAppend(s.audio, Started(h));
        s.(audio := s.audio + [Started(h)], currentPlaying := Some(h), pressedKeys := s.pressedKeys + {key})
  }

  /** `stop_sound` (src/core/sound_player.py:121-126). */
  function StopSound(s: State): (r: State)
    ensures r.currentPlaying.None? && r.pressedKeys == {}
    ensures Inv(s) ==> Inv(r) && Playing(r.audio) == {}
  {
    if s.currentPlaying.Some? then
      PlayingAppend(s.audio, Stopped(s.currentPlaying.value));
      s.(audio := s.audio + [Stopped(s.currentPlaying.value)], currentPlaying := None, pressedKeys := {})
    else
      s.(pressedKeys := {})
  }

  /** The completion poll finding the mixer idle (src/core/sound_player.py:108-111). */
  function SoundFinished(s: State): (r: State)
    ensures Inv(s) ==> Inv(r)
  {
    if s.currentPlaying.Some? then
      PlayingAppend(s.audio, Drained);
      s.(currentPlaying := None, pressedKeys := {}, audio := s.audio + [Drained])
    else s
  }

  /** The poll clears the current sound and the held keys, and the mixer then
      plays nothing. A poll that finds nothing current (a second, stale poll
      scheduled by an earlier `play_sound`) changes nothing, so repeated polls
      act as one. */
  lemma SoundFinishedEffect(s: State)
    requires Inv(s)
    ensures var r := SoundFinished(s);
      && r.currentPlaying.None? && Playing(r.audio) == {}
      && (s.currentPlaying.Some? ==> r.pressedKeys == {})
      && (s.currentPlaying.None? ==> r == s)
      && SoundFinished(r) == r
  {
    Monophonic(s);
  }

  /** A key without a handle leaves the state alone; otherwise the previous
      sound is stopped first and the held keys are cleared, and then the key's
      handle is current and the key is held. Nothing else changes. */
  lemma PlaySoundEffect(s: State, key: Key)
    ensures key !in s.sounds ==> PlaySound(s, key) == s
    ensures key in s.sounds ==> var r := PlaySound(s, key);
      && r.currentPlaying == Some(s.sounds[key])
      && key in r.pressedKeys
      && (s.currentPlaying.Some? ==>
            r.pressedKeys == {key} && r.audio == s.audio + [Stopped(s.currentPlaying.value), Started(s.sounds[key])])
      && (s.currentPlaying.None? ==> r.pressedKeys == s.pressedKeys + {key} && r.audio == s.audio + [Started(s.sounds[key])])
      && r == s.(currentPlaying := r.currentPlaying, pressedKeys := r.pressedKeys, audio := r.audio)
  {
    if key in s.sounds && s.currentPlaying.Some? {
      assert s.audio + [Stopped(s.currentPlaying.value)] + [Started(s.sounds[key])]
          == s.audio + [Stopped(s.currentPlaying.value), Started(s.sounds[key])];
    }
  }

  /** Playing k1 then k2 leaves exactly k2's sound playing and only k2 held. */
  lemma {:induction false} PlayThenPlay(s: State, k1: Key, k2: Key)
    requires Inv(s)
    requires k1 in s.sounds && k2 in s.sounds
    ensures var r := PlaySound(PlaySound(s, k1), k2);
      && r.currentPlaying == Some(s.sounds[k2])
      && r.pressedKeys == {k2}
      && Playing(r.audio) == {s.sounds[k2]}
  {
    var r1 := PlaySound(s, k1);
    PlaySoundEffect(s, k1);
    PlaySoundEffect(r1, k2);
    assert Inv(r1);
    var log := r1.audio + [Stopped(s.sounds[k1])];
    PlayingAppend(r1.audio, Stopped(s.sounds[k1]));
    assert Playing(log) == {};
    PlayingAppend(log, Started(s.sounds[k2]));
    assert PlaySound(r1, k2).audio == log + [Started(s.sounds[k2])];
  }

  /** Stopping twice is stopping once. */
  lemma StopSoundIdempotent(s: State)
    ensures StopSound(StopSound(s)) == StopSound(s)
  {
  }

  // ---------------------------------------------------------------- key events

  /** `play_sound_with_feedback` (src/core/sound_player.py:198-209), without the status text. */
  function PlaySoundWithFeedback(s: State, key: Key): (r: State)
    ensures Inv(s) ==> Inv(r)
  {
    if key in s.keySounds then PlaySound(s, key)
    else if s.stopOnUnbound then StopSound(s)
    else s
  }

  /** `on_keyboard_press` (src/core/sound_player.py:164-191); `dialogFocused`
      is whether a dialog window holds the focus. */
  function OnKeyboardPress(s: State, name: string, dialogFocused: bool): (r: State)
    ensures Inv(s) ==> Inv(r)
  {
    if !s.isRunning then s
    else
      var key := Upper(name);
      if dialogFocused then s
      else if key == s.stopKey then StopSound(s)
      else if s.longPressOptimize && key in s.pressedKeys then s
      else PlaySoundWithFeedback(if s.longPressOptimize then s.(pressedKeys := s.pressedKeys + {key}) else s, key)
  }

  /** `on_keyboard_release` (src/core/sound_player.py:193-196). */
  function OnKeyboardRelease(s: State, name: string): (r: State)
    ensures Inv(s) ==> Inv(r)
  {
    s.(pressedKeys := s.pressedKeys - {Upper(name)})
  }

  /** `toggle_running` (src/core/sound_player.py:141-162), without the hook. */
  function ToggleRunning(s: State): (r: State)
    ensures Inv(s) ==> Inv(r)
  {
    if !s.isRunning then s.(isRunning := true)
    else StopSound(s.(isRunning := false, pressedKeys := {}))
  }

  /** Presses are ignored while not listening, and while a dialog has the focus. */
  lemma PressIgnoredWhenInactive(s: State, name: string, dialogFocused: bool)
    requires !s.isRunning || dialogFocused
    ensures OnKeyboardPress(s, name, dialogFocused) == s
  {
  }

  /** Turning listening off clears the held keys and silences the mixer;
      turning it on changes nothing else. */
  lemma ToggleRunningEffect(s: State)
    requires Inv(s)
    ensures var r := ToggleRunning(s);
      && r.isRunning == !s.isRunning
      && (s.isRunning ==> r.pressedKeys == {} && r.currentPlaying.None? && Playing(r.audio) == {})
      && (!s.isRunning ==> r == s.(isRunning := true))
  {
  }

  /** The stop key stops playback and never starts a sound, even when it has a binding. */
  lemma StopKeyNeverPlays(s: State, name: string)
    requires s.isRunning && Upper(name) == s.stopKey
    ensures var r := OnKeyboardPress(s, name, false);
      && r == StopSound(s)
      && r.currentPlaying.None? && r.pressedKeys == {}
      && StartCount(r.audio) == StartCount(s.audio)
  {
    if s.currentPlaying.Some? {
      PlayingAppend(s.audio, Stopped(s.currentPlaying.value));
    }
  }

  /** A key that is neither the stop key nor held (under long-press
      optimisation) and has no binding stops playback exactly when
      `stop_on_unbound` is set; otherwise nothing sounds differently. */
  lemma UnboundKeyPress(s: State, name: string)
    requires s.isRunning
    requires Upper(name) != s.stopKey && Upper(name) !in s.keySounds
    requires !(s.longPressOptimize && Upper(name) in s.pressedKeys)
    ensures var r := OnKeyboardPress(s, name, false);
      && (s.stopOnUnbound ==> r.currentPlaying.None? && r.pressedKeys == {})
      && (!s.stopOnUnbound ==> r.currentPlaying == s.currentPlaying && r.audio == s.audio)
      && StartCount(r.audio) == StartCount(s.audio)
  {
    if s.stopOnUnbound && s.currentPlaying.Some? {
      PlayingAppend(s.audio, Stopped(s.currentPlaying.value));
    }
  }

  /** A bound key with a handle, not suppressed, starts its sound. */
  lemma BoundKeyPress(s: State, name: string)
    requires s.isRunning
    requires Upper(name) != s.stopKey && Upper(name) in s.sounds && Upper(name) in s.keySounds
    requires !(s.longPressOptimize && Upper(name) in s.pressedKeys)
    ensures var r := OnKeyboardPress(s, name, false);
      && r.currentPlaying == Some(s.sounds[Upper(name)])
      && Upper(name) in r.pressedKeys
      && StartCount(r.audio) == StartCount(s.audio) + 1
  {
    var key := Upper(name);
    var s1 := if s.longPressOptimize then s.(pressedKeys := s.pressedKeys + {key}) else s;
    if s.currentPlaying.Some? {
      PlayingAppend(s.audio, Stopped(s.currentPlaying.value));
      PlayingAppend(s.audio + [Stopped(s.currentPlaying.value)], Started(s.sounds[key]));
    } else {
      PlayingAppend(s.audio, Started(s.sounds[key]));
    }
  }

  /** With long-press optimisation, pressing a held key again changes nothing:
      a key held down through repeated presses [A, A, A] acts like one press,
      and so starts at most one sound. */
  lemma {:induction false} HeldKeyActsOnce(s: State, name: string)
    requires s.isRunning && s.longPressOptimize
    ensures var r1 := OnKeyboardPress(s, name, false);
      && OnKeyboardPress(r1, name, false) == r1
      && OnKeyboardPress(OnKeyboardPress(r1, name, false), name, false) == r1
      && StartCount(r1.audio) <= StartCount(s.audio) + 1
  {
    var key := Upper(name);
    var r1 := OnKeyboardPress(s, name, false);
    if key == s.stopKey {
      StopSoundIdempotent(s);
      StopKeyNeverPlays(s, name);
    } else if key in s.pressedKeys {
    } else {
      var s1 := s.(pressedKeys := s.pressedKeys + {key});
      if key in s.keySounds {
        if key in s.sounds {
          if s.currentPlaying.Some? {
            PlayingAppend(s.audio, Stopped(s.currentPlaying.value));
            PlayingAppend(s.audio + [Stopped(s.currentPlaying.value)], Started(s.sounds[key]));
          } else {
            PlayingAppend(s.audio, Started(s.sounds[key]));
          }
          assert key in r1.pressedKeys;
        }
      } else if s.stopOnUnbound {
        if s.currentPlaying.Some? {
          PlayingAppend(s.audio, Stopped(s.currentPlaying.value));
        }
        assert r1 == StopSound(s1);
        assert OnKeyboardPress(r1, name, false) == StopSound(r1.(pressedKeys := {key}));
      }
    }
  }

  /** Without long-press optimisation, every repeated press of a bound key
      starts its sound again. */
  lemma RepeatRestartsWithoutLongPress(s: State, name: string)
    requires s.isRunning && !s.longPressOptimize
    requires Upper(name) != s.stopKey && Upper(name) in s.sounds && Upper(name) in s.keySounds
    ensures var r1 := OnKeyboardPress(s, name, false);
      var r2 := OnKeyboardPress(r1, name, false);
      StartCount(r2.audio) == StartCount(r1.audio) + 1 && r2.currentPlaying == Some(s.sounds[Upper(name)])
  {
    var r1 := OnKeyboardPress(s, name, false);
    BoundKeyPress(s, name);
    BoundKeyPress(r1, name);
  }

  /** Release removes the key from the held set, held or not, and nothing else. */
  lemma ReleaseEffect(s: State, name: string)
    ensures var r := OnKeyboardRelease(s, name);
      && Upper(name) !in r.pressedKeys
      && r == s.(pressedKeys := s.pressedKeys - {Upper(name)})
  {
  }

  // ---------------------------------------------------------------- bindings

  /** `add_sound` (src/core/sound_player.py:79-86). */
  function AddSound(s: State, key: Key, path: Path): (r: State)
    requires Inv(s)
    ensures Inv(r)
  {
    var s1 := s.(keySounds := s.keySounds[key := path]);
    if Loadable(s.media, path) then SaveConfig(s1.(sounds := s.sounds[key := Sound(path)]))
    else s1
  }

  /** Whether `add_sound` got through without showing an error. */
  predicate AddSoundOk(s: State, key: Key, path: Path) {
    Loadable(s.media, path)
  }

  /** The binding is recorded whether or not the file loads. On success the
      key gets the new handle and the bindings are saved; on failure the key
      keeps whatever handle it had (for an overwritten binding, the old sound)
      and nothing is saved. Playback and scene list are untouched. */
  lemma AddSoundEffect(s: State, key: Key, path: Path)
    requires Inv(s)
    ensures var r := AddSound(s, key, path);
      && r.keySounds == s.keySounds[key := path]
      && r.currentScene == s.currentScene && r.scenes.keys == s.scenes.keys
      && r.currentPlaying == s.currentPlaying && r.pressedKeys == s.pressedKeys && r.audio == s.audio
      && (AddSoundOk(s, key, path) ==>
            r.sounds == s.sounds[key := Sound(path)]
            && Config.LoadConfig(r.disk) == Ok(Snapshot(r)))
      && (!AddSoundOk(s, key, path) ==> r.sounds == s.sounds && r.disk == s.disk)
  {
    if AddSoundOk(s, key, path) {
      var s2 := s.(keySounds := s.keySounds[key := path], sounds := s.sounds[key := Sound(path)]);
      var r := SaveConfig(s2);
      assert AddSound(s, key, path) == r;
      SavedSnapshot(s2);
    }
  }

  /** A failed `add_sound` over a key with a handle leaves that handle in place
      although the binding now names another file. Switching away and back
      reloads from the bindings, so the key then has no handle at all. */
  lemma FailedAddDroppedBySwitch(s: State, key: Key, q: Path, b: SceneId)
    requires Inv(s) && key in s.sounds && !Loadable(s.media, q) && b in s.scenes.entries
    ensures var a := AddSound(s, key, q);
      && a.keySounds[key] == q && a.sounds[key] == s.sounds[key]
      && key !in SwitchScene(SwitchScene(a, b), a.currentScene).sounds
  {
    AddSoundEffect(s, key, q);
    var a := AddSound(s, key, q);
    SwitchRoundTrip(a, b);
  }

  /** The same stale handle is lost on a restart from the next save. */
  lemma FailedAddDroppedByRestart(s: State, key: Key, q: Path)
    requires Inv(s) && key in s.sounds && !Loadable(s.media, q)
    requires s.currentScene != "" || s.currentScene == First(s.scenes)
    ensures var a := AddSound(s, key, q);
      && a.sounds[key] == s.sounds[key]
      && key !in Boot(SaveConfig(a).disk, s.media).sounds
  {
    AddSoundEffect(s, key, q);
    var a := AddSound(s, key, q);
    SaveRestartRoundTrip(a);
  }

  /** `remove_sound` (src/core/sound_player.py:128-133). When the key is bound
      but has no handle, `del self.sounds[key]` raises after the binding is
      already gone, and nothing is saved. */
  function RemoveSound(s: State, key: Key): (r: State)
    requires Inv(s)
    ensures Inv(r)
  {
    if key !in s.keySounds then s
    else
      var s1 := s.(keySounds := s.keySounds - {key});
      if key in s.sounds then SaveConfig(s1.(sounds := s.sounds - {key})) else s1
  }

  /** Whether `remove_sound` raises KeyError. */
  predicate RemoveSoundRaises(s: State, key: Key) {
    key in s.keySounds && key !in s.sounds
  }

  /** The key loses its binding and its handle; it raises exactly when the
      key was bound without a handle, and then nothing is saved. When the key
      had a handle, `config.json` loads back as the snapshot of the new state;
      an unbound key changes nothing. */
  lemma RemoveSoundEffect(s: State, key: Key)
    requires Inv(s)
    ensures var r := RemoveSound(s, key);
      && r.keySounds == s.keySounds - {key}
      && r.sounds == s.sounds - {key}
      && (key !in s.keySounds ==> r == s)
      && (RemoveSoundRaises(s, key) ==> r.disk == s.disk)
      && (key in s.sounds ==> Config.LoadConfig(r.disk) == Ok(Snapshot(r)))
  {
    if key in s.sounds {
      SavedSnapshot(s.(keySounds := s.keySounds - {key}, sounds := s.sounds - {key}));
    }
  }

  /** Last write wins: binding a key twice leaves the second path. */
  lemma AddSoundTwice(s: State, key: Key, p: Path, q: Path)
    requires Inv(s)
    ensures AddSound(AddSound(s, key, p), key, q).keySounds == s.keySounds[key := q]
  {
    AddSoundEffect(s, key, p);
    AddSoundEffect(AddSound(s, key, p), key, q);
  }

  /** Binding a fresh key to a loadable file and removing it again restores
      the bindings and handles. */
  lemma AddThenRemove(s: State, key: Key, path: Path)
    requires Inv(s) && key !in s.keySounds && Loadable(s.media, path)
    ensures var r := RemoveSound(AddSound(s, key, path), key);
      r.keySounds == s.keySounds && r.sounds == s.sounds
  {
    assert key !in s.sounds;
    var a := AddSound(s, key, path);
    AddSoundEffect(s, key, path);
    RemoveSoundEffect(a, key);
    PutThenRemove(s.keySounds, key, path);
    PutThenRemove(s.sounds, key, Sound(path));
  }

  // ---------------------------------------------------------------- scenes

  /** Make scene `c` of `t` current, with its bindings and freshly loaded
      handles: the steps `switch_scene`, `remove_scene` and `import_config`
      share (src/core/sound_player.py:222-226, 264-268, 340-349). */
  function EnterScene(s: State, t: Table<SceneId, Scene>, c: SceneId): (r: State)
    requires c in t.entries
    ensures r.currentScene == c && r.keySounds == t.entries[c].keySounds
    ensures r.sounds.Keys <= r.keySounds.Keys
    ensures Inv(s) ==> Inv(r)
  {
    var ks := t.entries[c].keySounds;
    s.(scenes := t, currentScene := c, keySounds := ks, sounds := LoadedSounds(ks, s.media))
  }

  /** `switch_scene` (src/core/sound_player.py:216-230). */
  function SwitchScene(s: State, id: SceneId): (r: State)
    requires Inv(s)
    ensures Inv(r)
  {
    if id !in s.scenes.entries then s
    else SaveConfig(EnterScene(s, LiveScenes(s), id))
  }

  predicate SwitchSceneOk(s: State, id: SceneId) {
    id in s.scenes.entries
  }

  /** An unknown id fails and changes nothing. A known one becomes current with
      its own bindings and freshly loaded handles; the outgoing bindings are
      kept, so no scene's bindings change, and `config.json` holds the result. */
  lemma SwitchSceneEffect(s: State, id: SceneId)
    requires Inv(s)
    ensures !SwitchSceneOk(s, id) ==> SwitchScene(s, id) == s
    ensures SwitchSceneOk(s, id) ==> var r := SwitchScene(s, id);
      && r.currentScene == id
      && r.keySounds == LiveScenes(s).entries[id].keySounds
      && r.sounds == LoadedSounds(r.keySounds, s.media)
      && LiveScenes(r) == LiveScenes(s)
      && r.currentPlaying == s.currentPlaying
    ensures SwitchSceneOk(s, id) ==> var r := SwitchScene(s, id);
      Config.LoadConfig(r.disk) == Ok(Snapshot(r))
  {
    if SwitchSceneOk(s, id) {
      var r := SwitchScene(s, id);
      assert LiveScenes(r).entries == LiveScenes(s).entries;
      SavedSnapshot(EnterScene(s, LiveScenes(s), id));
    }
  }

  /** Switching from A to B and back to A restores A's bindings and every
      scene, and reloads the handles of A's bindings (a handle kept by a failed
      `add_sound` is dropped, see `FailedAddDroppedBySwitch`). */
  lemma {:induction false} SwitchRoundTrip(s: State, b: SceneId)
    requires Inv(s) && b in s.scenes.entries
    ensures var r := SwitchScene(SwitchScene(s, b), s.currentScene);
      && r.currentScene == s.currentScene
      && r.keySounds == s.keySounds
      && r.sounds == LoadedSounds(s.keySounds, s.media)
      && LiveScenes(r) == LiveScenes(s)
  {
    SwitchSceneEffect(s, b);
    var r1 := SwitchScene(s, b);
    SwitchSceneEffect(r1, s.currentScene);
  }

  /** `add_scene` (src/core/sound_player.py:232-243). */
  function AddScene(s: State, id: SceneId, name: string): (r: State)
    requires Inv(s)
    ensures Inv(r)
  {
    if id in s.scenes.entries then s
    else SaveConfig(SwitchScene(s.(scenes := Put(s.scenes, id, Scene(name, map[]))), id))
  }

  predicate AddSceneOk(s: State, id: SceneId) {
    id !in s.scenes.entries
  }

  /** An existing id fails and changes nothing. A new id is appended as an
      empty scene and made current; the other scenes keep their bindings, and
      `config.json` holds the result. */
  lemma AddSceneEffect(s: State, id: SceneId, name: string)
    requires Inv(s)
    ensures !AddSceneOk(s, id) ==> AddScene(s, id, name) == s
    ensures AddSceneOk(s, id) ==> var r := AddScene(s, id, name);
      && r.currentScene == id
      && r.keySounds == map[] && r.sounds == map[]
      && r.scenes.keys == s.scenes.keys + [id]
      && LiveScenes(r).entries == LiveScenes(s).entries[id := Scene(name, map[])]
    ensures AddSceneOk(s, id) ==> var r := AddScene(s, id, name);
      Config.LoadConfig(r.disk) == Ok(Snapshot(r))
  {
    if AddSceneOk(s, id) {
      var s1 := s.(scenes := Put(s.scenes, id, Scene(name, map[])));
      LiveScenesOfNewScene(s, id, Scene(name, map[]));
      SwitchSceneEffect(s1, id);
      assert LoadedSounds(map[], s.media) == map[];
      SavedSnapshot(SwitchScene(s1, id));
    }
  }

  /** Adding a scene under a new id adds it, as it is, to the live view. */
  lemma LiveScenesOfNewScene(s: State, id: SceneId, sc: Scene)
    requires s.currentScene in s.scenes.entries && id !in s.scenes.entries
    ensures LiveScenes(s.(scenes := Put(s.scenes, id, sc))).entries == LiveScenes(s).entries[id := sc]
  {
  }

  /** `remove_scene` (src/core/sound_player.py:245-272). The write of the active
      bindings into the scene being removed (line 255) disappears with it. */
  function RemoveScene(s: State, id: SceneId): (r: State)
    requires Inv(s)
    ensures Inv(r)
  {
    if id !in s.scenes.entries || |s.scenes.keys| == 1 then s
    else
      var t := Remove(s.scenes, id);
      if id == s.currentScene then SaveConfig(EnterScene(s, t, First(t)))
      else
        SaveConfig(s.(scenes := t))
  }

  predicate RemoveSceneOk(s: State, id: SceneId) {
    id in s.scenes.entries && |s.scenes.keys| != 1
  }

  /** The last scene, or an unknown one, is refused with nothing changed.
      Otherwise the scene is gone, at least one remains, and when it was the
      current one the first remaining scene (in insertion order) becomes current
      with its bindings. */
  lemma RemoveSceneEffect(s: State, id: SceneId)
    requires Inv(s)
    ensures !RemoveSceneOk(s, id) ==> RemoveScene(s, id) == s
    ensures |RemoveScene(s, id).scenes.keys| >= 1
    ensures RemoveSceneOk(s, id) ==> var r := RemoveScene(s, id);
      && r.scenes.entries.Keys == s.scenes.entries.Keys - {id}
      && r.scenes.keys == Without(s.scenes.keys, id)
      && |r.scenes.keys| == |s.scenes.keys| - 1
      && (id == s.currentScene ==>
            r.currentScene == Without(s.scenes.keys, id)[0]
            && r.keySounds == s.scenes.entries[r.currentScene].keySounds)
      && (id != s.currentScene ==> r.currentScene == s.currentScene && r.keySounds == s.keySounds)
    ensures RemoveSceneOk(s, id) ==> var r := RemoveScene(s, id);
      && (forall o :: o in r.scenes.entries ==> r.scenes.entries[o] == LiveScenes(s).entries[o])
      && (id == s.currentScene ==> r.sounds == LoadedSounds(r.keySounds, s.media))
      && (id != s.currentScene ==> r.sounds == s.sounds)
      && Config.LoadConfig(r.disk) == Ok(Snapshot(r))
  {
    EmptyIffNoKeys(s.scenes);
    EmptyIffNoKeys(RemoveScene(s, id).scenes);
    if RemoveSceneOk(s, id) {
      var r := RemoveScene(s, id);
      if id == s.currentScene {
        var e := EnterScene(s, Remove(s.scenes, id), First(Remove(s.scenes, id)));
        RemoveCurrentScene(s, id);
        SavedSnapshot(e);
      } else {
        RemoveOtherScene(s, id);
        SavedSnapshot(s.(scenes := Remove(s.scenes, id)));
      }
    }
  }

  /** What `save_config` writes is the snapshot of the state it leaves. */
  lemma SavedSnapshot(s: State)
    requires s.currentScene in s.scenes.entries
    ensures var r := SaveConfig(s); Config.LoadConfig(r.disk) == Ok(Snapshot(r))
  {
    var r := SaveConfig(s);
    assert LiveScenes(r) == LiveScenes(s);
    assert Snapshot(r) == Snapshot(s);
  }

  /** Removing the current scene: the others keep their stored bindings and the
      new current scene's handles are reloaded. */
  lemma RemoveCurrentScene(s: State, id: SceneId)
    requires Inv(s) && RemoveSceneOk(s, id) && id == s.currentScene
    ensures var r := RemoveScene(s, id);
      && (forall o :: o in r.scenes.entries ==> r.scenes.entries[o] == LiveScenes(s).entries[o])
      && r.sounds == LoadedSounds(r.keySounds, s.media)
  {
    var t := Remove(s.scenes, id);
    EmptyIffNoKeys(s.scenes);
    EmptyIffNoKeys(t);
    var e := EnterScene(s, t, First(t));
    assert LiveScenes(e).entries == t.entries;
  }

  /** Removing another scene: the current scene's live bindings are committed,
      the rest keep theirs, and the handles stay. */
  lemma RemoveOtherScene(s: State, id: SceneId)
    requires Inv(s) && RemoveSceneOk(s, id) && id != s.currentScene
    ensures var r := RemoveScene(s, id);
      && (forall o :: o in r.scenes.entries ==> r.scenes.entries[o] == LiveScenes(s).entries[o])
      && r.sounds == s.sounds
  {
  }

  /** The document part of `export_scene` (src/core/sound_player.py:274-284). */
  function ExportScene(s: State, id: SceneId): (r: Option<Scene>)
    requires Inv(s)
    ensures r.Some? <==> id in s.scenes.entries
    ensures id == s.currentScene ==> r == Some(Scene(s.scenes.entries[id].name, s.keySounds))
  {
    if id in s.scenes.entries then Some(LiveScenes(s).entries[id]) else None
  }

  /** The value `json.load` returns from a scene file; only an object's `name`
      and `key_sounds` matter. */
  datatype SceneData = NotAnObject | Object(name: Option<string>, keySounds: Option<map<Key, Path>>)

  /** A scene file: one that cannot be opened or parsed, or its contents. */
  datatype SceneFile = Unreadable | Parsed(data: SceneData)

  predicate ValidSceneFile(f: SceneFile) {
    f.Parsed? && f.data.Object? && f.data.name.Some? && f.data.keySounds.Some?
  }

  /** The file `export_scene` writes for a scene. */
  function SceneFileOf(sc: Scene): (f: SceneFile)
    ensures ValidSceneFile(f)
  {
    Parsed(Object(Some(sc.name), Some(sc.keySounds)))
  }

  /** The id `import_scene` returns, `None` for a rejected file (src/core/sound_player.py:286-304). */
  function ImportedSceneId(s: State, f: SceneFile): (id: Option<SceneId>)
  {
    if ValidSceneFile(f)
    then Some(SceneIds.SceneIdOf(SceneIds.FirstFree(s.scenes.entries.Keys, |s.scenes.keys|)))
    else None
  }

  /** `import_scene` (src/core/sound_player.py:286-304). */
  function ImportScene(s: State, f: SceneFile): (r: State)
    requires Inv(s)
    ensures Inv(r)
  {
    if ValidSceneFile(f) then
      var id := ImportedSceneId(s, f).value;
      SaveConfig(s.(scenes := Put(s.scenes, id, Scene(f.data.name.value, f.data.keySounds.value))))
    else s
  }

  /** Only an object with `name` and `key_sounds` is accepted. The new id is
      `scene_n` for some n at least the number of scenes, was not in use, and
      holds exactly the file's name and bindings; the current scene, its
      bindings and every other scene are unchanged, and `config.json` holds
      the result. */
  lemma ImportSceneEffect(s: State, f: SceneFile)
    requires Inv(s)
    ensures !ValidSceneFile(f) ==> ImportedSceneId(s, f).None? && ImportScene(s, f) == s
    ensures ValidSceneFile(f) ==> var r := ImportScene(s, f); var id := ImportedSceneId(s, f);
      && id.Some?
      && id.value !in s.scenes.entries
      && (exists n: nat :: n >= |s.scenes.keys| && id.value == SceneIds.SceneIdOf(n))
      && r.scenes.keys == s.scenes.keys + [id.value]
      && r.scenes.entries[id.value] == Scene(f.data.name.value, f.data.keySounds.value)
      && (forall other :: other in s.scenes.entries ==> r.scenes.entries[other] == LiveScenes(s).entries[other])
      && r.currentScene == s.currentScene && r.keySounds == s.keySounds && r.sounds == s.sounds
    ensures ValidSceneFile(f) ==> var r := ImportScene(s, f);
      Config.LoadConfig(r.disk) == Ok(Snapshot(r))
  {
    if ValidSceneFile(f) {
      var n := SceneIds.FirstFree(s.scenes.entries.Keys, |s.scenes.keys|);
      assert ImportedSceneId(s, f).value == SceneIds.SceneIdOf(n);
      SavedSnapshot(s.(scenes := Put(s.scenes, SceneIds.SceneIdOf(n), Scene(f.data.name.value, f.data.keySounds.value))));
    }
  }

  /** Exporting a scene and importing the file adds a copy of it under a new id. */
  lemma ExportImportScene(s: State, id: SceneId)
    requires Inv(s) && id in s.scenes.entries
    ensures var f := SceneFileOf(ExportScene(s, id).value);
      var r := ImportScene(s, f); var nid := ImportedSceneId(s, f).value;
      nid != id && r.scenes.entries[nid] == LiveScenes(s).entries[id]
  {
    ImportSceneEffect(s, SceneFileOf(ExportScene(s, id).value));
  }

  // ---------------------------------------------------------------- whole configuration

  /** `export_config` (src/core/sound_player.py:306-325) commits the active
      bindings; the document it writes is `Snapshot`. */
  function ExportConfig(s: State): (r: State)
    requires Inv(s)
    ensures Inv(r)
    ensures r.scenes == LiveScenes(s) && LiveScenes(r) == LiveScenes(s)
    ensures r == s.(scenes := r.scenes)
    ensures Snapshot(r) == Snapshot(s)
  {
    s.(scenes := LiveScenes(s))
  }

  /** Whether `import_config` accepts a file: it opens and parses, has all five
      fields, and (see Findings) names one of its own scenes as current. */
  predicate ImportConfigOk(f: StoredFile) {
    f.Stored? && Complete(f.doc) && CurrentIsScene(f.doc)
  }

  /** `import_config` (src/core/sound_player.py:327-356), with the current-scene
      lookup done before any field is assigned. */
  function ImportConfig(s: State, f: StoredFile): (r: State)
    requires Inv(s)
    ensures Inv(r)
  {
    if !ImportConfigOk(f) then s
    else
      var s1 := s.(stopKey := f.doc.stopKey.value, stopOnUnbound := f.doc.stopOnUnbound.value,
                   longPressOptimize := f.doc.longPressOptimize.value);
      SaveConfig(EnterScene(s1, f.doc.scenes.value, f.doc.currentScene.value))
  }

  /** `import_config` exactly as written: `scenes` and `current_scene` are
      assigned before the lookup at line 342, whose KeyError is caught. */
  function ImportConfigAsWritten(s: State, f: StoredFile): (r: State)
    requires Inv(s)
  {
    if !(f.Stored? && Complete(f.doc)) then s
    else if f.doc.currentScene.value !in f.doc.scenes.value.entries then
      s.(scenes := f.doc.scenes.value, currentScene := f.doc.currentScene.value)
    else ImportConfig(s, f)
  }

  /** A file missing any of the five fields is refused with nothing changed. */
  lemma ImportConfigNeedsAllFields(s: State, f: StoredFile)
    requires Inv(s) && f.Stored? && !Complete(f.doc)
    ensures !ImportConfigOk(f) && ImportConfig(s, f) == s && ImportConfigAsWritten(s, f) == s
  {
  }

  /** Finding: a complete document whose `current_scene` is not among its
      `scenes` makes the source return False after replacing `scenes` and
      `current_scene`, leaving a current scene that does not exist; every
      later `save_config` then raises at line 68. The corrected import leaves
      the state unchanged. */
  lemma ImportConfigAsWrittenBreaksInvariant(s: State, f: StoredFile)
    requires Inv(s) && f.Stored? && Complete(f.doc) && !CurrentIsScene(f.doc)
    ensures !Inv(ImportConfigAsWritten(s, f))
    ensures ImportConfigAsWritten(s, f).currentScene !in ImportConfigAsWritten(s, f).scenes.entries
    ensures ImportConfig(s, f) == s
  {
  }

  /** A concrete instance: a player with scene "a" imports
      `{"current_scene": "b", "scenes": {}, ...}`. */
  lemma ImportConfigAsWrittenExample()
    ensures var s := Boot(Missing, {});
      var f := Stored(Document(Some("b"), Some(Empty()), None, Some("SPACE"), Some(true), Some(true)));
      !Inv(ImportConfigAsWritten(s, f)) && Inv(ImportConfig(s, f))
  {
    var s := Boot(Missing, {});
    var f := Stored(Document(Some("b"), Some(Empty()), None, Some("SPACE"), Some(true), Some(true)));
    ImportConfigAsWrittenBreaksInvariant(s, f);
  }

  /** Importing the exported configuration restores the scenes, the current
      scene, its bindings and the settings, and reloads the handles; it then
      saves, so `config.json` holds the exported document again. */
  lemma ExportImportConfig(s: State)
    requires Inv(s)
    ensures var r := ImportConfig(ExportConfig(s), Stored(Snapshot(s)));
      && ImportConfigOk(Stored(Snapshot(s)))
      && LiveScenes(r) == LiveScenes(s)
      && r.currentScene == s.currentScene && r.keySounds == s.keySounds
      && r.sounds == LoadedSounds(s.keySounds, s.media)
      && r.stopKey == s.stopKey && r.stopOnUnbound == s.stopOnUnbound
      && r.longPressOptimize == s.longPressOptimize
    ensures var r := ImportConfig(ExportConfig(s), Stored(Snapshot(s)));
      Config.LoadConfig(r.disk) == Ok(Snapshot(r)) && Snapshot(r) == Snapshot(s)
  {
    var t := LiveScenes(s);
    assert t.entries[s.currentScene].keySounds == s.keySounds;
    var s1 := ExportConfig(s);
    SavedSnapshot(EnterScene(s1, t, s.currentScene));
  }

  /** At least one scene exists. This follows from `Inv` directly; that it
      holds throughout a run is the `Inv(s) ==> Inv(r)` clause every operation
      carries (the as-written `import_config` aside). */
  lemma AtLeastOneScene(s: State)
    requires Inv(s)
    ensures |s.scenes.keys| >= 1
  {
    EmptyIffNoKeys(s.scenes);
  }
}
