/** Allocation of fresh scene ids. Both the scene importer
    (src/core/sound_player.py:293-295) and the "new scene" dialog
    (src/gui/main_window.py:780-782) start from `f"scene_{len(scenes)}"` and,
    while that id is taken, step to `f"scene_{int(id.split('_')[1]) + 1}"`. */
module SceneIds {
  import opened Text

  /** The decimal digit for `d`. */
  function DigitChar(d: nat): (c: char)
    requires d < 10
    ensures '0' <= c <= '9'
  {
    ('0' as int + d) as char
  }

  /** `str(n)`: the decimal notation of `n`, without leading zeros. */
  function Digits(n: nat): (r: string)
    ensures |r| >= 1
    ensures forall i :: 0 <= i < |r| ==> '0' <= r[i] <= '9'
  {
    if n < 10 then [DigitChar(n)] else Digits(n / 10) + [DigitChar(n % 10)]
  }

  predicate AllDigits(s: string) {
    forall i :: 0 <= i < |s| ==> '0' <= s[i] <= '9'
  }

  /** `int(s)` on a string of decimal digits. */
  function ParseNat(s: string): nat
    requires AllDigits(s)
  {
    if s == [] then 0 else ParseNat(s[..|s| - 1]) * 10 + (s[|s| - 1] as int - '0' as int)
  }

  /** Reading back the decimal notation of `n` gives `n`. */
  lemma {:induction false} ParseDigits(n: nat)
    ensures ParseNat(Digits(n)) == n
  {
    if n >= 10 {
      var d := Digits(n);
      assert d[..|d| - 1] == Digits(n / 10);
      ParseDigits(n / 10);
    }
  }

  const Prefix: string := "scene"

  /** `f"scene_{n}"`. */
  function SceneIdOf(n: nat): string {
    Prefix + "_" + Digits(n)
  }

  /** The step of the allocation loop: `f"scene_{int(id.split('_')[1]) + 1}"`. */
  function NextId(id: string): string
    requires AllDigits(Before(After(id, '_'), '_'))
  {
    SceneIdOf(ParseNat(Before(After(id, '_'), '_')) + 1)
  }

  /** `id.split('_')[1]` of `f"scene_{n}"` is the decimal notation of `n`. */
  lemma NumberField(n: nat)
    ensures Before(After(SceneIdOf(n), '_'), '_') == Digits(n)
  {
    AfterOf(Prefix, '_', Digits(n));
    assert SceneIdOf(n) == Prefix + ['_'] + Digits(n);
    BeforeOf(Digits(n), '_', []);
  }

  /** One step of the loop moves from the id numbered `n` to the one numbered `n + 1`. */
  lemma NextIdOf(n: nat)
    ensures AllDigits(Before(After(SceneIdOf(n), '_'), '_'))
    ensures NextId(SceneIdOf(n)) == SceneIdOf(n + 1)
  {
    NumberField(n);
    ParseDigits(n);
  }

  /** Different numbers give different ids. */
  lemma SceneIdInjective(m: nat, n: nat)
    requires SceneIdOf(m) == SceneIdOf(n)
    ensures m == n
  {
    NumberField(m);
    NumberField(n);
    ParseDigits(m);
    ParseDigits(n);
  }

  /** The ids numbered below `n`. */
  function IdsBelow(n: nat): set<string> {
    set m | 0 <= m < n :: SceneIdOf(m)
  }

  /** While the id numbered `n` is taken, the taken ids not yet tried shrink. */
  lemma TakenShrinks(ids: set<string>, n: nat)
    requires SceneIdOf(n) in ids
    ensures |ids - IdsBelow(n + 1)| < |ids - IdsBelow(n)|
  {
    var x := SceneIdOf(n);
    if x in IdsBelow(n) {
      var m :| 0 <= m < n && SceneIdOf(m) == x;
      SceneIdInjective(m, n);
    }
    assert IdsBelow(n + 1) == IdsBelow(n) + {x};
    assert ids - IdsBelow(n + 1) == (ids - IdsBelow(n)) - {x};
  }

  /** The number the allocation loop stops at: the least `r >= n` whose id is free. */
  function FirstFree(ids: set<string>, n: nat): (r: nat)
    ensures r >= n
    ensures SceneIdOf(r) !in ids
    ensures forall m :: n <= m < r ==> SceneIdOf(m) in ids
    decreases |ids - IdsBelow(n)|
  {
    if SceneIdOf(n) !in ids then n
    else
      TakenShrinks(ids, n);
      FirstFree(ids, n + 1)
  }

  /** The least free number from `n` on is unique. */
  lemma FirstFreeUnique(ids: set<string>, n: nat, r: nat)
    requires r >= n && SceneIdOf(r) !in ids
    requires forall m :: n <= m < r ==> SceneIdOf(m) in ids
    ensures r == FirstFree(ids, n)
  {
  }

  /** One more taken id extends the run of taken ids. */
  lemma TakenExtends(ids: set<string>, count: nat, n: nat)
    requires forall m :: count <= m < n ==> SceneIdOf(m) in ids
    requires SceneIdOf(n) in ids
    ensures forall m :: count <= m < n + 1 ==> SceneIdOf(m) in ids
  {
  }

  /** The allocation loop itself, started at `count` (the number of scenes). */
  method FreshSceneId(ids: set<string>, count: nat) returns (id: string)
    ensures id !in ids
    ensures id == SceneIdOf(FirstFree(ids, count))
  {
    id := SceneIdOf(count);
    ghost var n := count;
    while id in ids
      invariant n >= count && id == SceneIdOf(n)
      invariant forall m :: count <= m < n ==> SceneIdOf(m) in ids
      decreases |ids - IdsBelow(n)|
    {
      NextIdOf(n);
      TakenShrinks(ids, n);
      TakenExtends(ids, count, n);
      var next := NextId(id);
      assert next == SceneIdOf(n + 1);
      id, n := next, n + 1;
    }
    FirstFreeUnique(ids, count, n);
  }
}
