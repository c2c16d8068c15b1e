/** ConfigManager (src/core/config.py): loading `config.json`, migrating the
    legacy single-scene layout, and writing the document back. */
module Config {
  import opened Options
  import opened Tables

  type Key = string
  type Path = string
  type SceneId = string

  /** One scene: `{"name": ..., "key_sounds": {key: path}}`. */
  datatype Scene = Scene(name: string, keySounds: map<Key, Path>)

  /** A configuration document. Every top-level field may be missing, so each is
      optional; `keySounds` is the legacy flat binding map. */
  datatype Document = Document(
    currentScene: Option<SceneId>,
    scenes: Option<Table<SceneId, Scene>>,
    keySounds: Option<map<Key, Path>>,
    stopKey: Option<Key>,
    stopOnUnbound: Option<bool>,
    longPressOptimize: Option<bool>)

  /** What `open` and `json.load` find at a path. */
  datatype StoredFile = Missing | Unparseable | Stored(doc: Document)

  /** The `json.JSONDecodeError` that `load_config` does not catch. */
  datatype LoadError = MalformedDocument

  const DefaultSceneId: SceneId := "default"
  const DefaultSceneName: string := "默认场景"
  const DefaultStopKey: Key := "SPACE"

  /** The legacy layout: flat bindings and no scenes. */
  predicate IsLegacy(d: Document) {
    d.keySounds.Some? && d.scenes.None?
  }

  /** A table holding just one scene. */
  function SingleScene(id: SceneId, s: Scene): (t: Table<SceneId, Scene>)
    ensures t.keys == [id] && t.entries == map[id := s]
  {
    Put(Empty(), id, s)
  }

  /** The document written by the migration of a legacy document. */
  function Migrate(d: Document): (r: Document)
    requires IsLegacy(d)
  {
    Document(
      Some(DefaultSceneId),
      Some(SingleScene(DefaultSceneId, Scene(DefaultSceneName, d.keySounds.value))),
      None,
      Some(d.stopKey.GetOr(DefaultStopKey)),
      Some(d.stopOnUnbound.GetOr(true)),
      Some(d.longPressOptimize.GetOr(true)))
  }

  /** The document used when there is no `config.json`. */
  function DefaultDocument(): (r: Document)
  {
    Document(
      Some(DefaultSceneId),
      Some(SingleScene(DefaultSceneId, Scene(DefaultSceneName, map[]))),
      None,
      Some(DefaultStopKey),
      Some(true),
      Some(true))
  }

  /** `ConfigManager.load_config`. */
  function LoadConfig(f: StoredFile): (r: Result<Document, LoadError>)
    ensures r.Err? <==> f.Unparseable?
    ensures f.Stored? && !IsLegacy(f.doc) ==> r == Ok(f.doc)
    ensures r.Ok? ==> !IsLegacy(r.value)
  {
    match f
    case Missing => Ok(DefaultDocument())
    case Unparseable => Err(MalformedDocument)
    case Stored(d) => if IsLegacy(d) then Ok(Migrate(d)) else Ok(d)
  }

  /** `ConfigManager.save_config`: the document is written as it is. */
  function SaveConfig(d: Document): (f: StoredFile)
    ensures f.Stored?
  {
    Stored(d)
  }

  /** All five fields of the current layout are present. */
  predicate Complete(d: Document) {
    d.currentScene.Some? && d.scenes.Some? && d.stopKey.Some?
    && d.stopOnUnbound.Some? && d.longPressOptimize.Some?
  }

  /** The current scene names one of the document's scenes. */
  predicate CurrentIsScene(d: Document) {
    d.currentScene.Some? && d.scenes.Some? && d.currentScene.value in d.scenes.value.entries
  }

  /** A legacy document becomes one scene "default", named 默认场景, holding
      exactly the legacy bindings and made current; the three settings are kept
      when present and otherwise take their defaults; the flat map is dropped. */
  lemma MigrationShape(d: Document)
    requires IsLegacy(d)
    ensures var r := LoadConfig(Stored(d));
      && r.Ok?
      && r.value.scenes.Some?
      && r.value.scenes.value.keys == [DefaultSceneId]
      && r.value.scenes.value.entries[DefaultSceneId] == Scene(DefaultSceneName, d.keySounds.value)
      && r.value.currentScene == Some(DefaultSceneId)
      && r.value.keySounds.None?
      && r.value.stopKey == (if d.stopKey.Some? then d.stopKey else Some("SPACE"))
      && r.value.stopOnUnbound == (if d.stopOnUnbound.Some? then d.stopOnUnbound else Some(true))
      && r.value.longPressOptimize == (if d.longPressOptimize.Some? then d.longPressOptimize else Some(true))
      && Complete(r.value) && CurrentIsScene(r.value)
  {
  }

  /** Without a file, the document holds one empty scene "default", made
      current, and the default settings. */
  lemma MissingFileShape()
    ensures var r := LoadConfig(Missing);
      && r.Ok?
      && r.value.scenes.Some?
      && r.value.scenes.value.keys == [DefaultSceneId]
      && r.value.scenes.value.entries[DefaultSceneId] == Scene(DefaultSceneName, map[])
      && r.value == Document(Some("default"), r.value.scenes, None, Some("SPACE"), Some(true), Some(true))
      && Complete(r.value) && CurrentIsScene(r.value)
  {
  }

  /** Any other document, even one with missing fields, is returned with no
      default filled in. */
  lemma CurrentLayoutUntouched(d: Document)
    requires d.scenes.Some? || d.keySounds.None?
    ensures LoadConfig(Stored(d)) == Ok(d)
  {
  }

  /** Saving then loading a document of the current layout gives it back; a
      legacy document comes back migrated, and a second round trip changes nothing. */
  lemma SaveLoadRoundTrip(d: Document)
    ensures !IsLegacy(d) ==> LoadConfig(SaveConfig(d)) == Ok(d)
    ensures IsLegacy(d) ==> LoadConfig(SaveConfig(d)) == Ok(Migrate(d))
    ensures var r := LoadConfig(SaveConfig(d)).value; LoadConfig(SaveConfig(r)) == Ok(r)
  {
  }
}
