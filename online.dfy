/**
 * The in-memory online feature store (src/meridian/store/online.py): a
 * three-level table entity name -> entity id -> feature name -> value, with a
 * read, a merging write and a bulk write that issues one write per row.
 */
module Online {

  /** entity name -> entity id -> feature name -> value. */
  type Storage<V> = map<string, map<string, map<string, V>>>

  /** One row of the frame given to the bulk write, already reduced to `str(row[entity_id_col])` and `row[feature_name]`. */
  datatype BulkRow<V> = BulkRow(entityId: string, value: V)

  /** `storage.get(entity_name, {}).get(entity_id, {})`. */
  function StoredFeatures<V>(st: Storage<V>, entityName: string, entityId: string): map<string, V> {
    if entityName in st && entityId in st[entityName] then st[entityName][entityId] else map[]
  }

  /** The storage after `set_online_features(entity_name, entity_id, features)`. */
  function Merged<V>(st: Storage<V>, entityName: string, entityId: string, features: map<string, V>): Storage<V> {
    var entities := if entityName in st then st[entityName] else map[];
    var current := if entityId in entities then entities[entityId] else map[];
    st[entityName := entities[entityId := current + features]]
  }

  /** The storage after the bulk write of `rows`, one merge per row in row order. */
  function BulkMerged<V>(st: Storage<V>, entityName: string, rows: seq<BulkRow<V>>, featureName: string): Storage<V>
    decreases |rows|
  {
    if rows == [] then st
    else
      var last := rows[|rows| - 1];
      Merged(BulkMerged(st, entityName, rows[..|rows| - 1], featureName), entityName, last.entityId, map[featureName := last.value])
  }

  /**
   * A write merges: the written features are stored over the old ones for the same
   * (entity name, entity id), the other features there keep their values, and
   * every other entity name and entity id is untouched.
   */
  lemma MergedMeaning<V>(st: Storage<V>, entityName: string, entityId: string, features: map<string, V>)
    ensures var st' := Merged(st, entityName, entityId, features);
            && st'.Keys == st.Keys + {entityName}
            && st'[entityName].Keys == (if entityName in st then st[entityName].Keys else {}) + {entityId}
            && StoredFeatures(st', entityName, entityId) == StoredFeatures(st, entityName, entityId) + features
            && (forall n :: n in StoredFeatures(st, entityName, entityId) && n !in features ==>
                  n in StoredFeatures(st', entityName, entityId) &&
                  StoredFeatures(st', entityName, entityId)[n] == StoredFeatures(st, entityName, entityId)[n])
            && (forall e :: e in st && e != entityName ==> st'[e] == st[e])
            && (forall i :: entityName in st && i in st[entityName] && i != entityId ==> st'[entityName][i] == st[entityName][i])
  {
  }

  /** Reading back a written feature returns the written value. */
  lemma ReadAfterWrite<V>(st: Storage<V>, entityName: string, entityId: string, features: map<string, V>, name: string)
    requires name in features
    ensures name in StoredFeatures(Merged(st, entityName, entityId, features), entityName, entityId)
    ensures StoredFeatures(Merged(st, entityName, entityId, features), entityName, entityId)[name] == features[name]
  {
  }

  /** Writing the same features twice leaves the same storage as writing them once. */
  lemma MergeIdempotent<V>(st: Storage<V>, entityName: string, entityId: string, features: map<string, V>)
    ensures Merged(Merged(st, entityName, entityId, features), entityName, entityId, features)
         == Merged(st, entityName, entityId, features)
  {
    var once := Merged(st, entityName, entityId, features);
    var cur := StoredFeatures(st, entityName, entityId);
    assert once[entityName][entityId] == cur + features;
    assert (cur + features) + features == cur + features;
    assert once[entityName][entityId := (cur + features) + features] == once[entityName];
  }

  /** The bulk write changes nothing outside `entity_name`. */
  lemma {:induction false} BulkKeepsOtherEntities<V>(st: Storage<V>, entityName: string, rows: seq<BulkRow<V>>, featureName: string, e: string)
    requires e != entityName
    ensures var st' := BulkMerged(st, entityName, rows, featureName);
            (e in st' <==> e in st) && (e in st ==> st'[e] == st[e])
    decreases |rows|
  {
    if rows != [] {
      BulkKeepsOtherEntities(st, entityName, rows[..|rows| - 1], featureName, e);
    }
  }

  /** Within `entity_name`, the bulk write changes no feature other than `feature_name`. */
  lemma {:induction false} BulkKeepsOtherFeatures<V>(st: Storage<V>, entityName: string, rows: seq<BulkRow<V>>, featureName: string, entityId: string, name: string)
    requires name != featureName
    ensures var before, after := StoredFeatures(st, entityName, entityId), StoredFeatures(BulkMerged(st, entityName, rows, featureName), entityName, entityId);
            (name in after <==> name in before) && (name in before ==> after[name] == before[name])
    decreases |rows|
  {
    if rows != [] {
      BulkKeepsOtherFeatures(st, entityName, rows[..|rows| - 1], featureName, entityId, name);
    }
  }

  /** An entity id that no row names keeps its features. */
  lemma {:induction false} BulkKeepsUnnamedIds<V>(st: Storage<V>, entityName: string, rows: seq<BulkRow<V>>, featureName: string, entityId: string)
    requires forall i :: 0 <= i < |rows| ==> rows[i].entityId != entityId
    ensures StoredFeatures(BulkMerged(st, entityName, rows, featureName), entityName, entityId) == StoredFeatures(st, entityName, entityId)
    decreases |rows|
  {
    if rows != [] {
      BulkKeepsUnnamedIds(st, entityName, rows[..|rows| - 1], featureName, entityId);
    }
  }

  /** For a repeated entity id the last row wins: the stored value is that of the last row naming the id. */
  lemma {:induction false} BulkLastRowWins<V>(st: Storage<V>, entityName: string, rows: seq<BulkRow<V>>, featureName: string, i: nat)
    requires i < |rows|
    requires forall j :: i < j < |rows| ==> rows[j].entityId != rows[i].entityId
    ensures var stored := StoredFeatures(BulkMerged(st, entityName, rows, featureName), entityName, rows[i].entityId);
            featureName in stored && stored[featureName] == rows[i].value
    decreases |rows|
  {
    var init := rows[..|rows| - 1];
    if i < |rows| - 1 {
      assert init[i] == rows[i];
      BulkLastRowWins(st, entityName, init, featureName, i);
    }
  }

  /** InMemoryOnlineStore. */
  class InMemoryOnlineStore<V> {
    var storage: Storage<V>

    constructor ()
      ensures storage == map[]
    {
      storage := map[];
    }

    /**
     * get_online_features: the requested names that are stored for the entity,
     * with their values; nothing for an unknown entity name or id.
     */
    method GetOnlineFeatures(entityName: string, entityId: string, featureNames: seq<string>) returns (r: map<string, V>)
      ensures r.Keys == set n | n in featureNames && n in StoredFeatures(storage, entityName, entityId)
      ensures forall n :: n in r ==> r[n] == StoredFeatures(storage, entityName, entityId)[n]
      ensures entityName !in storage || entityId !in storage[entityName] ==> r == map[]
    {
      var entityStorage := if entityName in storage then storage[entityName] else map[];
      var features := if entityId in entityStorage then entityStorage[entityId] else map[];
      r := map n | n in featureNames && n in features :: features[n];
    }

    /** set_online_features: creates the entity's tables when missing, then merges `features` in. */
    method SetOnlineFeatures(entityName: string, entityId: string, features: map<string, V>)
      modifies this
      ensures storage == Merged(old(storage), entityName, entityId, features)
    {
      var st := storage;
      if entityName !in st {
        st := st[entityName := map[]];
      }
      var entities := st[entityName];
      if entityId !in entities {
        entities := entities[entityId := map[]];
      }
      entities := entities[entityId := entities[entityId] + features];
      assert entities == Merged(storage, entityName, entityId, features)[entityName];
      assert st[entityName := entities] == storage[entityName := entities];
      storage := st[entityName := entities];
    }

    /** set_online_features_bulk: one single-feature write per row, in row order. */
    method SetOnlineFeaturesBulk(entityName: string, rows: seq<BulkRow<V>>, featureName: string)
      modifies this
      ensures storage == BulkMerged(old(storage), entityName, rows, featureName)
    {
      for i := 0 to |rows|
        invariant storage == BulkMerged(old(storage), entityName, rows[..i], featureName)
      {
        assert rows[..i + 1][..i] == rows[..i];
        SetOnlineFeatures(entityName, rows[i].entityId, map[featureName := rows[i].value]);
      }
      assert rows[..|rows|] == rows;
    }
  }

  /** The server test's round trip: a value written for ("User", "u1") is read back. */
  method SetThenGet() returns (r: map<string, int>)
    ensures r == map["user_clicks" := 42]
  {
    var store := new InMemoryOnlineStore<int>();
    store.SetOnlineFeatures("User", "u1", map["user_clicks" := 42]);
    r := store.GetOnlineFeatures("User", "u1", ["user_clicks"]);
  }
}
