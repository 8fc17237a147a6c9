/**
 * The desktop back end: the `greet` command and the start-up step that seeds
 * the preferences store with the default phase lengths.
 *
 * The preferences store is an in-memory key/value map; loading it from disk
 * and writing it back are not part of this model.
 */
module Backend {
  import Display

  // ---------------------------------------------------------------------
  // greet

  const GREETING_PREFIX: string := "Hello, "
  const GREETING_SUFFIX: string := "! You've been greeted from Rust!"

  /**
   * The greeting for `name`: the fixed prefix, the name as given, the fixed
   * suffix. The name can be read back out of the greeting.
   */
  function Greet(name: string): (r: string)
    ensures |r| == |GREETING_PREFIX| + |name| + |GREETING_SUFFIX|
    ensures r[..|GREETING_PREFIX|] == GREETING_PREFIX
    ensures r[|GREETING_PREFIX|..|GREETING_PREFIX| + |name|] == name
    ensures r[|GREETING_PREFIX| + |name|..] == GREETING_SUFFIX
  {
    GREETING_PREFIX + name + GREETING_SUFFIX
  }

  /** Different names get different greetings. */
  lemma GreetInjective(a: string, b: string)
    requires Greet(a) == Greet(b)
    ensures a == b
  {
    var r := Greet(a);
    assert |a| == |b|;
    assert a == r[|GREETING_PREFIX|..|GREETING_PREFIX| + |a|] == b;
  }

  // ---------------------------------------------------------------------
  // Preferences store

  /** The JSON values the store holds (arrays and objects are not modelled). */
  datatype Json = Null | Bool(b: bool) | Number(n: int) | Str(s: string)

  datatype Option<T> = None | Some(value: T)

  const POMODORO_KEY: string := "pomodoro"
  const SHORT_REST_KEY: string := "short_rest"
  const LONG_REST_KEY: string := "long_rest"

  /** The three keys the start-up step seeds. */
  function SeededKeys(): set<string> {
    {POMODORO_KEY, SHORT_REST_KEY, LONG_REST_KEY}
  }

  /** The value written for each key when it is missing. */
  const POMODORO_SEED: Json := Number(25 * 60)
  const SHORT_REST_SEED: Json := Number(5 * 60)
  const LONG_REST_SEED: Json := Number(15 * 60)

  /** A key/value store whose entries are updated in place. */
  class Store {
    var entries: map<string, Json>

    constructor (initial: map<string, Json>)
      ensures entries == initial
    {
      entries := initial;
    }

    /** The value under `key`, or None when the key is absent. */
    method Get(key: string) returns (v: Option<Json>)
      ensures v.Some? <==> key in entries
      ensures v.Some? ==> v.value == entries[key]
    {
      if key in entries {
        v := Some(entries[key]);
      } else {
        v := None;
      }
    }

    /** Stores `value` under `key`, replacing any previous value. */
    method Set(key: string, value: Json)
      modifies this
      ensures entries == old(entries)[key := value]
    {
      entries := entries[key := value];
    }
  }

  /**
   * One guarded write of the start-up step: `key` gets `value` only when it
   * is absent. Every existing entry keeps its value.
   */
  function SetIfAbsent(m: map<string, Json>, key: string, value: Json): (r: map<string, Json>)
    ensures r.Keys == m.Keys + {key}
    ensures forall k :: k in m ==> r[k] == m[k]
    ensures key !in m ==> r[key] == value
  {
    if key in m then m else m[key := value]
  }

  /** The entries after the start-up step, as a function of those before. */
  function Seeded(m: map<string, Json>): map<string, Json> {
    var m1 := SetIfAbsent(m, POMODORO_KEY, POMODORO_SEED);
    var m2 := SetIfAbsent(m1, SHORT_REST_KEY, SHORT_REST_SEED);
    SetIfAbsent(m2, LONG_REST_KEY, LONG_REST_SEED)
  }

  /** The defaults as a map of their own. */
  function Defaults(): map<string, Json> {
    map[POMODORO_KEY := POMODORO_SEED, SHORT_REST_KEY := SHORT_REST_SEED, LONG_REST_KEY := LONG_REST_SEED]
  }

  /**
   * The start-up step: each of the three preference keys that is missing
   * from the store is set to its default; nothing else is written.
   */
  method SeedDefaults(store: Store)
    modifies store
    ensures store.entries == Seeded(old(store.entries))
    ensures SeededKeys() <= store.entries.Keys
    ensures forall k :: k in old(store.entries) ==> k in store.entries && store.entries[k] == old(store.entries)[k]
  {
    var pomodoro := store.Get(POMODORO_KEY);
    if pomodoro == None {
      store.Set(POMODORO_KEY, POMODORO_SEED);
    }
    var shortRest := store.Get(SHORT_REST_KEY);
    if shortRest == None {
      store.Set(SHORT_REST_KEY, SHORT_REST_SEED);
    }
    var longRest := store.Get(LONG_REST_KEY);
    if longRest == None {
      store.Set(LONG_REST_KEY, LONG_REST_SEED);
    }
  }

  // ---------------------------------------------------------------------
  // Properties of the start-up step

  /**
   * Seeding is the union of the defaults with the existing entries, where
   * the existing entries win: an independent description of the three
   * guarded writes.
   */
  lemma SeededIsUnion(m: map<string, Json>)
    ensures Seeded(m) == Defaults() + m
  {
    var r, u := Seeded(m), Defaults() + m;
    assert r.Keys == u.Keys;
    forall k | k in r
      ensures r[k] == u[k]
    {
    }
  }

  /** After seeding all three keys are present. */
  lemma SeededHasAllKeys(m: map<string, Json>)
    ensures Seeded(m).Keys == m.Keys + SeededKeys()
  {
  }

  /** Seeding never overwrites: a key that was present keeps its value. */
  lemma SeededPreserves(m: map<string, Json>, k: string)
    requires k in m
    ensures k in Seeded(m) && Seeded(m)[k] == m[k]
  {
  }

  /** A seeded key that was absent gets its default. */
  lemma SeededDefaults(m: map<string, Json>)
    ensures POMODORO_KEY !in m ==> Seeded(m)[POMODORO_KEY] == POMODORO_SEED
    ensures SHORT_REST_KEY !in m ==> Seeded(m)[SHORT_REST_KEY] == SHORT_REST_SEED
    ensures LONG_REST_KEY !in m ==> Seeded(m)[LONG_REST_KEY] == LONG_REST_SEED
  {
  }

  /** Keys other than the three seeded ones are neither added nor changed. */
  lemma SeededOthersUnchanged(m: map<string, Json>, k: string)
    requires k !in SeededKeys()
    ensures k in Seeded(m) <==> k in m
    ensures k in m ==> Seeded(m)[k] == m[k]
  {
  }

  /** Running the start-up step twice gives the same store as running it once. */
  lemma SeededIdempotent(m: map<string, Json>)
    ensures Seeded(Seeded(m)) == Seeded(m)
  {
    SeededIsUnion(m);
    SeededIsUnion(Seeded(m));
    assert Defaults() + (Defaults() + m) == Defaults() + m;
  }

  /** The back end seeds the same lengths the front end uses as defaults. */
  lemma SeedsMatchFrontEnd()
    ensures POMODORO_SEED == Number(Display.POMODORO_DEFAULT)
    ensures SHORT_REST_SEED == Number(Display.SHORT_REST_DEFAULT)
    ensures LONG_REST_SEED == Number(Display.LONG_REST_DEFAULT)
  {
  }
}
