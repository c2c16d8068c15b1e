/** The SoundPlayer object of src/core/sound_player.py, whose methods update its
    fields in place. Each method is proved to leave the object in the state the
    matching `Engine` function computes, so every lemma proved there about the
    function holds of the method. */
module Player {
  import opened Options
  import opened Tables
  import opened Text
  import opened Config
  import opened Engine
  import SceneIds

  class SoundPlayer {
    var scenes: Table<SceneId, Scene>
    var currentScene: SceneId
    var keySounds: map<Key, Path>
    var sounds: map<Key, Sound>
    var currentPlaying: Option<Sound>
    var pressedKeys: set<Key>
    var isRunning: bool
    var stopKey: Key
    var stopOnUnbound: bool
    var longPressOptimize: bool
    /** The contents of `config.json`. */
    var disk: StoredFile
    /** What has been asked of the mixer so far. */
    ghost var audio: seq<MixerEvent>
    /** The files the mixer can open. */
    const media: set<Path>

    ghost function State(): State
      reads this
    {
      Engine.State(scenes, currentScene, keySounds, sounds, currentPlaying, pressedKeys, isRunning,
                   stopKey, stopOnUnbound, longPressOptimize, disk, audio, media)
    }

    ghost predicate Valid()
      reads this
    {
      Inv(State())
    }

    /** `__init__` with `load_config` and `load_sounds` (src/core/sound_player.py:9-63). */
    constructor (file: StoredFile, media: set<Path>)
      requires Config.LoadConfig(file).Ok?
      ensures State() == Boot(file, media)
      ensures Valid()
    {
      var d := Config.LoadConfig(file).value;
      var t := BootScenes(d);
      var c := BootCurrent(d, t);
      scenes, currentScene := t, c;
      keySounds := t.entries[c].keySounds;
      sounds, currentPlaying, pressedKeys, isRunning := map[], None, {}, false;
      stopKey := d.stopKey.GetOr(DefaultStopKey);
      stopOnUnbound := d.stopOnUnbound.GetOr(true);
      longPressOptimize := d.longPressOptimize.GetOr(true);
      disk, audio := file, [];
      this.media := media;
      new;
      assert State() == Booted(file, media);
      LoadSounds();
      assert sounds == LoadedSounds(keySounds, media);
    }

    /** `load_sounds` (src/core/sound_player.py:32-41): open a handle for every
      binding whose file loads, leaving the others without one. */
    method LoadSounds()
      modifies this`sounds
      ensures sounds == old(sounds) + LoadedSounds(keySounds, media)
      ensures State() == old(State()).(sounds := sounds)
    {
      var rest := keySounds.Keys;
      while rest != {}
        invariant rest <= keySounds.Keys
        invariant sounds == old(sounds) + LoadedSounds(keySounds - rest, media)
        decreases |rest|
      {
        var key :| key in rest;
        var path := keySounds[key];
        LoadStep(old(sounds), keySounds, rest, key, media);
        if Loadable(media, path) {
          sounds := sounds[key := Sound(path)];
        }
        rest := rest - {key};
      }
      assert keySounds - rest == keySounds;
    }

    /** Make scene `c` of `t` current and reload the handles
      (src/core/sound_player.py:222-226, 264-268, 340-349). */
    method EnterScene(t: Table<SceneId, Scene>, c: SceneId)
      requires c in t.entries
      modifies this
      ensures State() == Engine.EnterScene(old(State()), t, c)
    {
      scenes, currentScene := t, c;
      keySounds := t.entries[c].keySounds;
      sounds := map[];
      LoadSounds();
      assert sounds == LoadedSounds(keySounds, media);
    }

    /** `save_config` (src/core/sound_player.py:65-77). */
    method SaveConfig()
      requires currentScene in scenes.entries
      modifies this
      ensures State() == Engine.SaveConfig(old(State()))
    {
      scenes := Put(scenes, currentScene, scenes.entries[currentScene].(keySounds := keySounds));
      disk := Config.SaveConfig(Document(Some(currentScene), Some(scenes), None,
                                         Some(stopKey), Some(stopOnUnbound), Some(longPressOptimize)));
    }

    /** `add_sound` (src/core/sound_player.py:79-86): the binding is recorded
      before the file is opened. */
    method AddSound(key: Key, path: Path)
      requires Valid()
      modifies this
      ensures State() == Engine.AddSound(old(State()), key, path)
      ensures Valid()
    {
      keySounds := keySounds[key := path];
      if Loadable(media, path) {
        sounds := sounds[key := Sound(path)];
        SaveConfig();
      }
    }

    /** `play_sound` (src/core/sound_player.py:88-104). */
    method PlaySound(key: Key)
      requires Valid()
      modifies this
      ensures State() == Engine.PlaySound(old(State()), key)
      ensures Valid()
    {
      if key in sounds {
        if currentPlaying.Some? {
          audio := audio + [Stopped(currentPlaying.value)];
          pressedKeys := {};
        }
        audio := audio + [Started(sounds[key])];
        currentPlaying := Some(sounds[key]);
        pressedKeys := pressedKeys + {key};
      }
    }

    /** The completion poll of `play_sound` finding the mixer idle
      (src/core/sound_player.py:107-111). */
    method SoundFinished()
      requires Valid()
      modifies this
      ensures State() == Engine.SoundFinished(old(State()))
      ensures Valid()
    {
      if currentPlaying.Some? {
        audio := audio + [Drained];
        currentPlaying := None;
        pressedKeys := {};
      }
    }

    /** `stop_sound` (src/core/sound_player.py:121-126). */
    method StopSound()
      requires Valid()
      modifies this
      ensures State() == Engine.StopSound(old(State()))
      ensures Valid()
    {
      if currentPlaying.Some? {
        audio := audio + [Stopped(currentPlaying.value)];
        currentPlaying := None;
      }
      pressedKeys := {};
    }

    /** `remove_sound` (src/core/sound_player.py:128-133); `raised` reports the
      KeyError of line 132. */
    method RemoveSound(key: Key) returns (raised: bool)
      requires Valid()
      modifies this
      ensures State() == Engine.RemoveSound(old(State()), key)
      ensures raised == RemoveSoundRaises(old(State()), key)
      ensures Valid()
    {
      raised := false;
      if key in keySounds {
        keySounds := keySounds - {key};
        if key !in sounds {
          raised := true;
          return;
        }
        sounds := sounds - {key};
        SaveConfig();
      }
    }

    /** `toggle_running` (src/core/sound_player.py:141-162). */
    method ToggleRunning()
      requires Valid()
      modifies this
      ensures State() == Engine.ToggleRunning(old(State()))
      ensures Valid()
    {
      isRunning := !isRunning;
      if !isRunning {
        pressedKeys := {};
        StopSound();
      }
    }

    /** `on_keyboard_press` (src/core/sound_player.py:164-191). */
    method OnKeyboardPress(name: string, dialogFocused: bool)
      requires Valid()
      modifies this
      ensures State() == Engine.OnKeyboardPress(old(State()), name, dialogFocused)
      ensures Valid()
    {
      if !isRunning {
        return;
      }
      var key := Upper(name);
      if dialogFocused {
        return;
      }
      if key == stopKey {
        StopSound();
        return;
      }
      if longPressOptimize {
        if key in pressedKeys {
          return;
        }
        pressedKeys := pressedKeys + {key};
      }
      PlaySoundWithFeedback(key);
    }

    /** `on_keyboard_release` (src/core/sound_player.py:193-196). */
    method OnKeyboardRelease(name: string)
      requires Valid()
      modifies this
      ensures State() == Engine.OnKeyboardRelease(old(State()), name)
      ensures Valid()
    {
      pressedKeys := pressedKeys - {Upper(name)};
    }

    /** `play_sound_with_feedback` (src/core/sound_player.py:198-214). */
    method PlaySoundWithFeedback(key: Key)
      requires Valid()
      modifies this
      ensures State() == Engine.PlaySoundWithFeedback(old(State()), key)
      ensures Valid()
    {
      if key in keySounds {
        PlaySound(key);
      } else if stopOnUnbound {
        StopSound();
      }
    }

    /** `switch_scene` (src/core/sound_player.py:216-230). */
    method SwitchScene(id: SceneId) returns (ok: bool)
      requires Valid()
      modifies this
      ensures State() == Engine.SwitchScene(old(State()), id)
      ensures ok == SwitchSceneOk(old(State()), id)
      ensures Valid()
    {
      if id !in scenes.entries {
        return false;
      }
      var live := Put(scenes, currentScene, scenes.entries[currentScene].(keySounds := keySounds));
      EnterScene(live, id);
      SaveConfig();
      return true;
    }

    /** `add_scene` (src/core/sound_player.py:232-243). */
    method AddScene(id: SceneId, name: string) returns (ok: bool)
      requires Valid()
      modifies this
      ensures State() == Engine.AddScene(old(State()), id, name)
      ensures ok == AddSceneOk(old(State()), id)
      ensures Valid()
    {
      if id in scenes.entries {
        return false;
      }
      scenes := Put(scenes, id, Scene(name, map[]));
      ok := SwitchScene(id);
      SaveConfig();
      return true;
    }

    /** `remove_scene` (src/core/sound_player.py:245-272). */
    method RemoveScene(id: SceneId) returns (ok: bool)
      requires Valid()
      modifies this
      ensures State() == Engine.RemoveScene(old(State()), id)
      ensures ok == RemoveSceneOk(old(State()), id)
      ensures Valid()
    {
      if id !in scenes.entries {
        return false;
      }
      if |scenes.keys| == 1 {
        return false;
      }
      var t := Remove(scenes, id);
      if currentScene == id {
        EnterScene(t, First(t));
      } else {
        scenes := t;
      }
      SaveConfig();
      return true;
    }

    /** The document part of `export_scene` (src/core/sound_player.py:274-284):
      the scene as it would be written, the current one with its live bindings. */
    method ExportScene(id: SceneId) returns (r: Option<Scene>)
      requires Valid()
      ensures r == Engine.ExportScene(State(), id)
    {
      if id !in scenes.entries {
        return None;
      }
      if id == currentScene {
        return Some(scenes.entries[id].(keySounds := keySounds));
      }
      return Some(scenes.entries[id]);
    }

    /** `import_scene` (src/core/sound_player.py:286-304). */
    method ImportScene(f: SceneFile) returns (id: Option<SceneId>)
      requires Valid()
      modifies this
      ensures State() == Engine.ImportScene(old(State()), f)
      ensures id == ImportedSceneId(old(State()), f)
      ensures Valid()
    {
      if !ValidSceneFile(f) {
        return None;
      }
      var newId := SceneIds.FreshSceneId(scenes.entries.Keys, |scenes.keys|);
      scenes := Put(scenes, newId, Scene(f.data.name.value, f.data.keySounds.value));
      SaveConfig();
      return Some(newId);
    }

    /** `export_config` (src/core/sound_player.py:306-325): commit the active
      bindings and return the document written to the chosen file. */
    method ExportConfig() returns (d: Document)
      requires Valid()
      modifies this
      ensures State() == Engine.ExportConfig(old(State()))
      ensures d == Snapshot(old(State()))
      ensures Valid()
    {
      scenes := Put(scenes, currentScene, scenes.entries[currentScene].(keySounds := keySounds));
      d := Document(Some(currentScene), Some(scenes), None, Some(stopKey), Some(stopOnUnbound), Some(longPressOptimize));
    }

    /** `import_config` (src/core/sound_player.py:327-356), with the scene
      lookup of line 342 made before anything is assigned. */
    method ImportConfig(f: StoredFile) returns (ok: bool)
      requires Valid()
      modifies this
      ensures State() == Engine.ImportConfig(old(State()), f)
      ensures ok == ImportConfigOk(f)
      ensures Valid()
    {
      if !f.Stored? || !Complete(f.doc) {
        return false;
      }
      var t := f.doc.scenes.value;
      var c := f.doc.currentScene.value;
      if c !in t.entries {
        return false;
      }
      stopKey := f.doc.stopKey.value;
      stopOnUnbound := f.doc.stopOnUnbound.value;
      longPressOptimize := f.doc.longPressOptimize.value;
      ghost var s1 := State();
      assert s1 == old(State()).(stopKey := f.doc.stopKey.value, stopOnUnbound := f.doc.stopOnUnbound.value,
                                 longPressOptimize := f.doc.longPressOptimize.value);
      EnterScene(t, c);
      ghost var s2 := State();
      SaveConfig();
      assert State() == Engine.SaveConfig(s2) && s2 == Engine.EnterScene(s1, t, c);
      return true;
    }
  }
}
