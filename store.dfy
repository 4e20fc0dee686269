/**
 * The override store's persisted form: the plugin's config.yml with the
 * top-level keys "global-speed" (a number) and "ghast-speeds" (a section
 * keyed by UUID text), what writeConfig puts there and what readConfig
 * gets back.
 */
module OverrideStore {
  import opened Wrappers
  import opened Uuids
  import opened Logging

  /** A YAML value as `getDouble` sees it: a number, or anything else. */
  datatype Value = Number(n: real) | NonNumber

  /**
   * The two keys of config.yml the plugin uses. `ghastSpeeds` is None when
   * "ghast-speeds" is missing or is not a section.
   */
  datatype Config = Config(globalSpeed: Option<Value>, ghastSpeeds: Option<map<string, Value>>)

  /** `getDouble`: the number stored at a key, 0.0 when it is missing or not a number. */
  function GetDouble(v: Option<Value>): real {
    if v.Some? && v.value.Number? then v.value.n else 0.0
  }

  /**
   * The map writeConfig builds: each override under the canonical text of
   * its UUID.
   */
  function SaveMap(overrides: map<Uuid, real>): map<string, Value> {
    ToStringInjective();
    map u | u in overrides :: ToString(u) := Number(overrides[u])
  }

  /** Every override is saved under the text of its UUID. */
  lemma SaveMapAt(overrides: map<Uuid, real>, u: Uuid)
    requires u in overrides
    ensures ToString(u) in SaveMap(overrides) && SaveMap(overrides)[ToString(u)] == Number(overrides[u])
  {
    ToStringInjective();
  }

  /** Every saved key is the text of an override's UUID and holds that override. */
  lemma SaveMapKey(overrides: map<Uuid, real>, k: string)
    requires k in SaveMap(overrides)
    ensures FromString(k).Some? && FromString(k).value in overrides
    ensures SaveMap(overrides)[k] == Number(overrides[FromString(k).value])
  {
    var u :| u in overrides && k == ToString(u);
    FromStringToString(u);
    SaveMapAt(overrides, u);
  }

  /** Adding one new override adds exactly one entry to the saved map. */
  lemma SaveMapPut(overrides: map<Uuid, real>, u: Uuid, speed: real)
    requires u !in overrides
    ensures SaveMap(overrides[u := speed]) == SaveMap(overrides)[ToString(u) := Number(speed)]
  {
    var next := overrides[u := speed];
    var left := SaveMap(next);
    var right := SaveMap(overrides)[ToString(u) := Number(speed)];
    forall k | k in left ensures k in right && left[k] == right[k] {
      var w :| w in next && k == ToString(w);
      SaveMapAt(next, w);
      if w != u {
        ToStringInjective();
        SaveMapAt(overrides, w);
      }
    }
    forall k | k in right ensures k in left {
      if k != ToString(u) {
        SaveMapKey(overrides, k);
        SaveMapAt(next, FromString(k).value);
      } else {
        SaveMapAt(next, u);
      }
    }
    assert left.Keys == right.Keys;
  }

  /** Taking one key out of the removed set puts its entry back. */
  lemma MapRestoreOne<K, V>(m: map<K, V>, removed: set<K>, k: K)
    requires k in removed && k in m
    ensures m - (removed - {k}) == (m - removed)[k := m[k]]
  {
  }

  /** One step of writeConfig's loop: saving one more override of `overrides`. */
  lemma SaveMapStep(overrides: map<Uuid, real>, pending: set<Uuid>, u: Uuid)
    requires u in pending && u in overrides
    ensures SaveMap(overrides - (pending - {u})) == SaveMap(overrides - pending)[ToString(u) := Number(overrides[u])]
  {
    MapRestoreOne(overrides, pending, u);
    SaveMapPut(overrides - pending, u, overrides[u]);
  }

  /** config.yml after writeConfig: both keys replaced. */
  function Written(global: real, overrides: map<Uuid, real>): Config {
    Config(Some(Number(global)), Some(SaveMap(overrides)))
  }

  /**
   * `loaded` is what readConfig's loop puts into the cleared map after
   * visiting `keys` of `section`, in some order: every visited key that
   * parses gives an entry, and every entry comes from a visited key that
   * parses to it. When two keys parse to the same UUID (they differ only in
   * the case of their letters), the one visited last wins, so either may.
   */
  ghost predicate LoadedFrom(section: map<string, Value>, keys: set<string>, loaded: map<Uuid, real>) {
    (forall k :: k in keys && k in section && FromString(k).Some? ==> FromString(k).value in loaded) &&
    (forall u :: u in loaded ==>
      exists k :: k in keys && k in section && FromString(k) == Some(u) && loaded[u] == GetDouble(Some(section[k])))
  }

  /** `warnings` warns once about each visited key that is not a UUID, and about nothing else. */
  ghost predicate WarnedAbout(keys: set<string>, warnings: seq<LogRecord>) {
    (forall i :: 0 <= i < |warnings| ==>
      warnings[i].InvalidUuidKey? && warnings[i].key in keys && FromString(warnings[i].key).None?) &&
    (forall k :: k in keys && FromString(k).None? ==> InvalidUuidKey(k) in warnings) &&
    (forall i, j :: 0 <= i < j < |warnings| ==> warnings[i] != warnings[j])
  }

  /**
   * readConfig's outcome on `c`: the global speed, the override map and the
   * log records it emits (the global speed, then one warning per bad key).
   */
  ghost predicate Loaded(c: Config, global: real, overrides: map<Uuid, real>, records: seq<LogRecord>) {
    global == GetDouble(c.globalSpeed) &&
    |records| >= 1 && records[0] == GlobalSpeedLoaded(global) &&
    match c.ghastSpeeds
    case None => overrides == map[] && |records| == 1
    case Some(section) => LoadedFrom(section, section.Keys, overrides) && WarnedAbout(section.Keys, records[1..])
  }

  /** Visiting one more key keeps LoadedFrom, with the entry it adds when it parses. */
  lemma LoadStep(section: map<string, Value>, keys: set<string>, loaded: map<Uuid, real>, k: string)
    requires LoadedFrom(section, keys, loaded) && k in section
    ensures LoadedFrom(section, keys + {k},
      if FromString(k).Some? then loaded[FromString(k).value := GetDouble(Some(section[k]))] else loaded)
  {
    var next := if FromString(k).Some? then loaded[FromString(k).value := GetDouble(Some(section[k]))] else loaded;
    forall u | u in next
      ensures exists k' :: k' in keys + {k} && k' in section && FromString(k') == Some(u) && next[u] == GetDouble(Some(section[k']))
    {
      if FromString(k) == Some(u) {
        assert k in keys + {k};
      } else {
        var k' :| k' in keys && k' in section && FromString(k') == Some(u) && loaded[u] == GetDouble(Some(section[k']));
        assert k' in keys + {k};
      }
    }
  }

  /** Visiting one more key keeps WarnedAbout, with a warning when it does not parse. */
  lemma WarnStep(keys: set<string>, warnings: seq<LogRecord>, k: string)
    requires WarnedAbout(keys, warnings) && k !in keys
    ensures WarnedAbout(keys + {k}, if FromString(k).None? then warnings + [InvalidUuidKey(k)] else warnings)
  {
    if FromString(k).None? {
      var next := warnings + [InvalidUuidKey(k)];
      forall i, j | 0 <= i < j < |next| ensures next[i] != next[j] {
        if j == |warnings| {
          assert next[i].key in keys;
        }
      }
    }
  }

  /** An entry read back from a saved map is one of the saved overrides. */
  lemma LoadedFromSaved(overrides: map<Uuid, real>, loaded: map<Uuid, real>, u: Uuid)
    requires LoadedFrom(SaveMap(overrides), SaveMap(overrides).Keys, loaded) && u in loaded
    ensures u in overrides && loaded[u] == overrides[u]
  {
    var saved := SaveMap(overrides);
    var k :| k in saved && FromString(k) == Some(u) && loaded[u] == GetDouble(Some(saved[k]));
    SaveMapKey(overrides, k);
  }

  /** Every saved override is read back. */
  lemma SavedIsLoaded(overrides: map<Uuid, real>, loaded: map<Uuid, real>, u: Uuid)
    requires LoadedFrom(SaveMap(overrides), SaveMap(overrides).Keys, loaded) && u in overrides
    ensures u in loaded
  {
    FromStringToString(u);
    SaveMapAt(overrides, u);
  }

  /** Whatever order readConfig visits the keys of a saved map in, it gets the original overrides back. */
  lemma SaveLoadRoundTrip(overrides: map<Uuid, real>, loaded: map<Uuid, real>)
    requires LoadedFrom(SaveMap(overrides), SaveMap(overrides).Keys, loaded)
    ensures loaded == overrides
  {
    ToStringInjective();
    forall u | u in loaded ensures u in overrides && loaded[u] == overrides[u] {
      LoadedFromSaved(overrides, loaded, u);
    }
    forall u | u in overrides ensures u in loaded {
      SavedIsLoaded(overrides, loaded, u);
    }
    assert loaded.Keys == overrides.Keys;
  }

  /** No two keys of a section parse to the same UUID. */
  ghost predicate NoCollisions(section: map<string, Value>) {
    forall k1, k2 :: k1 in section && k2 in section && FromString(k1).Some? && FromString(k1) == FromString(k2) ==> k1 == k2
  }

  /**
   * Keys that are not UUIDs are skipped and every other key still loads,
   * with its own value when no other key names the same UUID.
   */
  lemma {:induction false} ValidKeysLoad(section: map<string, Value>, loaded: map<Uuid, real>)
    requires LoadedFrom(section, section.Keys, loaded)
    ensures loaded.Keys == set k | k in section && FromString(k).Some? :: FromString(k).value
    ensures NoCollisions(section) ==>
      forall k :: k in section && FromString(k).Some? ==> loaded[FromString(k).value] == GetDouble(Some(section[k]))
  {
    forall u | u in loaded ensures u in set k | k in section && FromString(k).Some? :: FromString(k).value {
      var k :| k in section && FromString(k) == Some(u) && loaded[u] == GetDouble(Some(section[k]));
    }
    if NoCollisions(section) {
      forall k | k in section && FromString(k).Some?
        ensures loaded[FromString(k).value] == GetDouble(Some(section[k]))
      {
        var u := FromString(k).value;
        var k' :| k' in section && FromString(k') == Some(u) && loaded[u] == GetDouble(Some(section[k']));
        assert k' == k;
      }
    }
  }

  /** Every way readConfig can read the document `c` yields `global` and `overrides`. */
  ghost predicate ReadsBackAs(c: Config, global: real, overrides: map<Uuid, real>) {
    forall g, m, records :: Loaded(c, g, m, records) ==> g == global && m == overrides
  }

  /** Round trip: reading back what writeConfig wrote gives the same global speed and overrides. */
  lemma {:induction false} WrittenReadsBack(global: real, overrides: map<Uuid, real>)
    ensures ReadsBackAs(Written(global, overrides), global, overrides)
  {
    forall g, m, records | Loaded(Written(global, overrides), g, m, records)
      ensures g == global && m == overrides
    {
      SaveLoadRoundTrip(overrides, m);
    }
  }

  /** A sequence without repeats, drawn from `s`, is no longer than `s`: warnings are never repeated. */
  lemma {:induction false} DistinctWithin<T>(ws: seq<T>, s: set<T>)
    requires forall i :: 0 <= i < |ws| ==> ws[i] in s
    requires forall i, j :: 0 <= i < j < |ws| ==> ws[i] != ws[j]
    ensures |ws| <= |s|
    decreases |ws|
  {
    if |ws| > 0 {
      var last := ws[|ws| - 1];
      var init := ws[..|ws| - 1];
      forall i | 0 <= i < |init| ensures init[i] in s - {last} {
        assert init[i] == ws[i];
      }
      DistinctWithin(init, s - {last});
    }
  }

  /**
   * A document holding a malformed key next to an override of 0.3 loads
   * that override and nothing else, and warns once, about the malformed key.
   */
  lemma MalformedKeyScenario(u: Uuid, loaded: map<Uuid, real>, warnings: seq<LogRecord>)
    requires LoadedFrom(map["not-a-uuid" := Number(0.2), ToString(u) := Number(0.3)],
                        {"not-a-uuid", ToString(u)}, loaded)
    requires WarnedAbout({"not-a-uuid", ToString(u)}, warnings)
    ensures loaded == map[u := 0.3]
    ensures warnings == [InvalidUuidKey("not-a-uuid")]
  {
    var section := map["not-a-uuid" := Number(0.2), ToString(u) := Number(0.3)];
    FromStringToString(u);
    assert FromString("not-a-uuid").None?;
    assert u in loaded;
    forall v | v in loaded ensures v == u && loaded[v] == 0.3 {
      var k :| k in {"not-a-uuid", ToString(u)} && k in section && FromString(k) == Some(v) && loaded[v] == GetDouble(Some(section[k]));
      assert k == ToString(u);
    }
    assert loaded.Keys == {u};
    assert InvalidUuidKey("not-a-uuid") in warnings;
    forall i | 0 <= i < |warnings| ensures warnings[i] == InvalidUuidKey("not-a-uuid") {
      assert warnings[i].key in {"not-a-uuid", ToString(u)};
    }
    DistinctWithin(warnings, {InvalidUuidKey("not-a-uuid")});
  }

}
