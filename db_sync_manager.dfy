/**
 * `DbSyncManager.DbSyncManagerConfig` and its `Builder`. The builder edits one configuration
 * object in place; its sensor list never holds two sensors with the same id.
 * The timer, reachability and battery gating of `DbSyncManager` itself are platform I/O.
 */
module DbSyncManagers {
  import opened DbSyncConfigs

  /** A sensor, seen only through its `id`; the rest of `AwareSensor` is not part of this model. */
  class AwareSensor {
    const id: string

    constructor (id: string)
      ensures this.id == id
    {
      this.id := id;
    }
  }

  /** Some sensor of `s` has id `id`. */
  predicate HasId(s: seq<AwareSensor>, id: string)
  {
    exists i :: 0 <= i < |s| && s[i].id == id
  }

  /** No two sensors of `s` share an id. */
  predicate DistinctIds(s: seq<AwareSensor>)
  {
    forall i, j :: 0 <= i < j < |s| ==> s[i].id != s[j].id
  }

  /** The list after `addSensor(x)`: `x` is appended unless its id is already there. */
  function WithSensor(s: seq<AwareSensor>, x: AwareSensor): (r: seq<AwareSensor>)
    ensures |s| <= |r| <= |s| + 1 && r[..|s|] == s
    ensures HasId(r, x.id)
  {
    if HasId(s, x.id) then s else assert (s + [x])[|s|] == x; s + [x]
  }

  /** The list after `addSensors(xs)`: each sensor of `xs` in turn, as by `addSensor`. */
  function WithSensors(s: seq<AwareSensor>, xs: seq<AwareSensor>): (r: seq<AwareSensor>)
    ensures |s| <= |r| <= |s| + |xs| && r[..|s|] == s
  {
    if xs == [] then s else WithSensor(WithSensors(s, xs[..|xs| - 1]), xs[|xs| - 1])
  }

  /** The list without the sensors whose id is `id`, the others in their order. */
  function WithoutId(s: seq<AwareSensor>, id: string): (r: seq<AwareSensor>)
    ensures |r| <= |s|
    ensures forall i | 0 <= i < |r| :: r[i].id != id
  {
    if s == [] then []
    else WithoutId(s[..|s| - 1], id) + (if s[|s| - 1].id == id then [] else [s[|s| - 1]])
  }

  /** Adding one sensor keeps the ids distinct, keeps the old list as a prefix, and records the id. */
  lemma WithSensorProperties(s: seq<AwareSensor>, x: AwareSensor)
    requires DistinctIds(s)
    ensures DistinctIds(WithSensor(s, x))
    ensures s <= WithSensor(s, x)
    ensures forall id :: HasId(WithSensor(s, x), id) <==> HasId(s, id) || id == x.id
  {
    var r := WithSensor(s, x);
    forall id
      ensures HasId(r, id) <==> HasId(s, id) || id == x.id
    {
      if !HasId(s, x.id) && id == x.id {
        assert r[|s|].id == id;
      }
      if HasId(s, id) {
        var i :| 0 <= i < |s| && s[i].id == id;
        assert r[i] == s[i];
      }
    }
  }

  /**
   * `addSensors` keeps the ids distinct, keeps the old list as a prefix, and afterwards the list
   * holds exactly the ids that were there or in `xs`, duplicates inside `xs` included only once.
   */
  lemma {:induction false} WithSensorsProperties(s: seq<AwareSensor>, xs: seq<AwareSensor>)
    requires DistinctIds(s)
    ensures DistinctIds(WithSensors(s, xs))
    ensures s <= WithSensors(s, xs)
    ensures forall id :: HasId(WithSensors(s, xs), id) <==> HasId(s, id) || HasId(xs, id)
  {
    if xs != [] {
      var init, last := xs[..|xs| - 1], xs[|xs| - 1];
      WithSensorsProperties(s, init);
      WithSensorProperties(WithSensors(s, init), last);
      forall id
        ensures HasId(xs, id) <==> HasId(init, id) || id == last.id
      {
        if HasId(xs, id) && id != last.id {
          var i :| 0 <= i < |xs| && xs[i].id == id;
          assert init[i] == xs[i];
        }
        if HasId(init, id) {
          var i :| 0 <= i < |init| && init[i].id == id;
          assert xs[i] == init[i];
        }
        if id == last.id {
          assert xs[|xs| - 1].id == id;
        }
      }
    }
  }

  /** Removing an id never adds one and leaves only the sensors with other ids. */
  lemma {:induction false} WithoutIdHasIds(s: seq<AwareSensor>, id: string)
    ensures forall x :: HasId(WithoutId(s, id), x) <==> HasId(s, x) && x != id
  {
    if s != [] {
      var init, last := s[..|s| - 1], s[|s| - 1];
      WithoutIdHasIds(init, id);
      var rest := WithoutId(init, id);
      var r := WithoutId(s, id);
      assert r[..|rest|] == rest;
      forall x
        ensures HasId(r, x) <==> HasId(s, x) && x != id
      {
        if HasId(s, x) && x != id {
          var i :| 0 <= i < |s| && s[i].id == x;
          if i < |init| {
            assert init[i] == s[i];
            assert HasId(init, x);
            var k :| 0 <= k < |rest| && rest[k].id == x;
            assert r[k] == rest[k];
          } else {
            assert r[|r| - 1] == last;
          }
        }
        if HasId(r, x) {
          var k :| 0 <= k < |r| && r[k].id == x;
          if k < |rest| {
            assert rest[k] == r[k];
            assert HasId(rest, x);
            var i :| 0 <= i < |init| && init[i].id == x;
            assert s[i] == init[i];
          } else {
            assert r[k] == last && s[|s| - 1] == last;
          }
        }
      }
    }
  }

  /** In a list with distinct ids, no sensor before index `k` has the id of the sensor at `k`. */
  lemma DistinctPrefixLacksId(s: seq<AwareSensor>, k: int)
    requires DistinctIds(s) && 0 <= k < |s|
    ensures !HasId(s[..k], s[k].id)
  {
    forall i | 0 <= i < k
      ensures s[..k][i].id != s[k].id
    {
      assert s[..k][i] == s[i];
    }
  }

  /** A prefix one longer holds the id exactly when the shorter prefix or the new sensor does. */
  lemma HasIdExtend(s: seq<AwareSensor>, k: int, id: string)
    requires 0 <= k < |s|
    ensures HasId(s[..k + 1], id) <==> HasId(s[..k], id) || s[k].id == id
  {
    if HasId(s[..k], id) {
      var i :| 0 <= i < k && s[..k][i].id == id;
      assert s[..k + 1][i] == s[i];
    }
    if s[k].id == id {
      assert s[..k + 1][k] == s[k];
    }
    if HasId(s[..k + 1], id) {
      var i :| 0 <= i <= k && s[..k + 1][i].id == id;
      if i < k {
        assert s[..k][i] == s[i];
      }
    }
  }

  /** Without the id, the list is the original one when the id was absent. */
  lemma {:induction false} WithoutAbsentId(s: seq<AwareSensor>, id: string)
    requires !HasId(s, id)
    ensures WithoutId(s, id) == s
  {
    if s != [] {
      var init := s[..|s| - 1];
      forall i | 0 <= i < |init|
        ensures init[i].id != id
      {
        assert init[i] == s[i];
      }
      WithoutAbsentId(init, id);
      assert s[|s| - 1].id != id;
      assert init + [s[|s| - 1]] == s;
    }
  }

  /** With distinct ids, removing the id of the sensor at `k` deletes exactly that sensor. */
  lemma {:induction false} WithoutIdDeletesAt(s: seq<AwareSensor>, k: int)
    requires DistinctIds(s) && 0 <= k < |s|
    ensures WithoutId(s, s[k].id) == s[..k] + s[k + 1..]
  {
    var id := s[k].id;
    var init := s[..|s| - 1];
    if k == |s| - 1 {
      DistinctPrefixLacksId(s, k);
      WithoutAbsentId(init, id);
    } else {
      WithoutIdDeletesAt(init, k);
      assert s[|s| - 1].id != id;
      assert init[..k] == s[..k];
      assert init[k + 1..] + [s[|s| - 1]] == s[k + 1..];
    }
  }

  /** Removing keeps the ids distinct. */
  lemma {:induction false} WithoutIdKeepsDistinct(s: seq<AwareSensor>, id: string)
    requires DistinctIds(s)
    ensures DistinctIds(WithoutId(s, id))
  {
    if HasId(s, id) {
      var k :| 0 <= k < |s| && s[k].id == id;
      WithoutIdDeletesAt(s, k);
    } else {
      WithoutAbsentId(s, id);
    }
  }

  /** `DbSyncManagerConfig`: the settings a `DbSyncManager` runs with. */
  class DbSyncManagerConfig {
    var syncInterval: real            // minutes
    var wifiOnly: bool
    var batteryChargingOnly: bool
    var debug: bool
    var debugLevel: DbSyncDebugLevel
    var sensors: seq<AwareSensor>

    /** `init()`: the property initialisers. */
    constructor ()
      ensures syncInterval == 1.0 && wifiOnly && !batteryChargingOnly && !debug
      ensures debugLevel == info && sensors == []
    {
      syncInterval := 1.0;
      wifiOnly := true;
      batteryChargingOnly := false;
      debug := false;
      debugLevel := info;
      sensors := [];
    }
  }

  /** The manager a builder produces; it shares the builder's configuration object. */
  class DbSyncManager {
    const config: DbSyncManagerConfig

    constructor (config: DbSyncManagerConfig)
      ensures this.config == config
    {
      this.config := config;
    }
  }

  class Builder {
    const builderConfig: DbSyncManagerConfig

    /** The sensor list holds each id at most once. */
    predicate Valid()
      reads this, builderConfig
    {
      DistinctIds(builderConfig.sensors)
    }

    constructor ()
      ensures fresh(builderConfig)
      ensures builderConfig.syncInterval == 1.0 && builderConfig.wifiOnly && !builderConfig.batteryChargingOnly
      ensures !builderConfig.debug && builderConfig.debugLevel == info && builderConfig.sensors == []
      ensures Valid()
    {
      builderConfig := new DbSyncManagerConfig();
    }

    /** `setSyncInterval`: only a positive interval is taken; any other leaves the old one. */
    method SetSyncInterval(minutes: real) returns (r: Builder)
      modifies builderConfig
      ensures r == this
      ensures builderConfig.syncInterval == if minutes > 0.0 then minutes else old(builderConfig.syncInterval)
      ensures builderConfig.wifiOnly == old(builderConfig.wifiOnly)
      ensures builderConfig.batteryChargingOnly == old(builderConfig.batteryChargingOnly)
      ensures builderConfig.sensors == old(builderConfig.sensors)
      ensures builderConfig.debug == old(builderConfig.debug)
      ensures builderConfig.debugLevel == old(builderConfig.debugLevel)
    {
      if minutes > 0.0 {
        builderConfig.syncInterval := minutes;
      }
      r := this;
    }

    /** `setWifiOnly`: changes only the Wi-Fi flag. */
    method SetWifiOnly(state: bool) returns (r: Builder)
      modifies builderConfig
      ensures r == this
      ensures builderConfig.wifiOnly == state
      ensures builderConfig.syncInterval == old(builderConfig.syncInterval)
      ensures builderConfig.batteryChargingOnly == old(builderConfig.batteryChargingOnly)
      ensures builderConfig.sensors == old(builderConfig.sensors)
      ensures builderConfig.debug == old(builderConfig.debug)
      ensures builderConfig.debugLevel == old(builderConfig.debugLevel)
    {
      builderConfig.wifiOnly := state;
      r := this;
    }

    /** `setBatteryOnly`: changes only the battery flag. */
    method SetBatteryOnly(state: bool) returns (r: Builder)
      modifies builderConfig
      ensures r == this
      ensures builderConfig.batteryChargingOnly == state
      ensures builderConfig.syncInterval == old(builderConfig.syncInterval)
      ensures builderConfig.wifiOnly == old(builderConfig.wifiOnly)
      ensures builderConfig.sensors == old(builderConfig.sensors)
      ensures builderConfig.debug == old(builderConfig.debug)
      ensures builderConfig.debugLevel == old(builderConfig.debugLevel)
    {
      builderConfig.batteryChargingOnly := state;
      r := this;
    }

    /** `isExist`: a linear search of the sensor list by id. */
    method IsExist(targetSensor: AwareSensor) returns (found: bool)
      ensures found <==> HasId(builderConfig.sensors, targetSensor.id)
    {
      var sensors := builderConfig.sensors;
      var i := 0;
      while i < |sensors|
        invariant 0 <= i <= |sensors|
        invariant forall k :: 0 <= k < i ==> sensors[k].id != targetSensor.id
      {
        if sensors[i].id == targetSensor.id {
          return true;
        }
        i := i + 1;
      }
      return false;
    }

    /** `addSensor`: appends the sensor unless one with its id is already there. */
    method AddSensor(sensor: AwareSensor) returns (r: Builder)
      requires Valid()
      modifies builderConfig
      ensures r == this && Valid()
      ensures builderConfig.sensors == WithSensor(old(builderConfig.sensors), sensor)
      ensures builderConfig.syncInterval == old(builderConfig.syncInterval)
      ensures builderConfig.wifiOnly == old(builderConfig.wifiOnly)
      ensures builderConfig.batteryChargingOnly == old(builderConfig.batteryChargingOnly)
      ensures builderConfig.debug == old(builderConfig.debug)
      ensures builderConfig.debugLevel == old(builderConfig.debugLevel)
    {
      WithSensorProperties(builderConfig.sensors, sensor);
      var exists_ := IsExist(sensor);
      if !exists_ {
        builderConfig.sensors := builderConfig.sensors + [sensor];
      }
      r := this;
    }

    /** `addSensors`: `addSensor` for each sensor of the array, in order. */
    method AddSensors(sensors: seq<AwareSensor>) returns (r: Builder)
      requires Valid()
      modifies builderConfig
      ensures r == this && Valid()
      ensures builderConfig.sensors == WithSensors(old(builderConfig.sensors), sensors)
      ensures builderConfig.syncInterval == old(builderConfig.syncInterval)
      ensures builderConfig.wifiOnly == old(builderConfig.wifiOnly)
      ensures builderConfig.batteryChargingOnly == old(builderConfig.batteryChargingOnly)
      ensures builderConfig.debug == old(builderConfig.debug)
      ensures builderConfig.debugLevel == old(builderConfig.debugLevel)
    {
      var i := 0;
      while i < |sensors|
        invariant 0 <= i <= |sensors|
        invariant Valid()
        invariant builderConfig.sensors == WithSensors(old(builderConfig.sensors), sensors[..i])
        invariant builderConfig.syncInterval == old(builderConfig.syncInterval)
        invariant builderConfig.wifiOnly == old(builderConfig.wifiOnly)
        invariant builderConfig.batteryChargingOnly == old(builderConfig.batteryChargingOnly)
        invariant builderConfig.debug == old(builderConfig.debug)
        invariant builderConfig.debugLevel == old(builderConfig.debugLevel)
      {
        WithSensorProperties(builderConfig.sensors, sensors[i]);
        var found := IsExist(sensors[i]);
        if !found {
          builderConfig.sensors := builderConfig.sensors + [sensors[i]];
        }
        assert sensors[..i + 1][..i] == sensors[..i];
        i := i + 1;
      }
      assert sensors[..i] == sensors;
      r := this;
    }

    /**
     * `remove`: walks a snapshot of the list and removes, from the live list, the sensor at the
     * index where the id matches. With distinct ids this deletes exactly the matching sensor.
     */
    method Remove(targetSensor: AwareSensor) returns (r: Builder)
      requires Valid()
      modifies builderConfig
      ensures r == this && Valid()
      ensures builderConfig.sensors == WithoutId(old(builderConfig.sensors), targetSensor.id)
      ensures builderConfig.syncInterval == old(builderConfig.syncInterval)
      ensures builderConfig.wifiOnly == old(builderConfig.wifiOnly)
      ensures builderConfig.batteryChargingOnly == old(builderConfig.batteryChargingOnly)
      ensures builderConfig.debug == old(builderConfig.debug)
      ensures builderConfig.debugLevel == old(builderConfig.debugLevel)
    {
      var snapshot := builderConfig.sensors;
      var index := 0;
      while index < |snapshot|
        invariant 0 <= index <= |snapshot|
        invariant !HasId(snapshot[..index], targetSensor.id) ==> builderConfig.sensors == snapshot
        invariant HasId(snapshot[..index], targetSensor.id) ==>
          builderConfig.sensors == WithoutId(snapshot, targetSensor.id)
        invariant builderConfig.syncInterval == old(builderConfig.syncInterval)
        invariant builderConfig.wifiOnly == old(builderConfig.wifiOnly)
        invariant builderConfig.batteryChargingOnly == old(builderConfig.batteryChargingOnly)
        invariant builderConfig.debug == old(builderConfig.debug)
        invariant builderConfig.debugLevel == old(builderConfig.debugLevel)
      {
        HasIdExtend(snapshot, index, targetSensor.id);
        if snapshot[index].id == targetSensor.id {
          DistinctPrefixLacksId(snapshot, index);
          WithoutIdDeletesAt(snapshot, index);
          builderConfig.sensors := builderConfig.sensors[..index] + builderConfig.sensors[index + 1..];
        }
        index := index + 1;
      }
      assert snapshot[..index] == snapshot;
      if !HasId(snapshot, targetSensor.id) {
        WithoutAbsentId(snapshot, targetSensor.id);
      }
      WithoutIdKeepsDistinct(snapshot, targetSensor.id);
      r := this;
    }

    /** `build`: a manager over this builder's configuration object. */
    method Build() returns (manager: DbSyncManager)
      ensures fresh(manager) && manager.config == builderConfig
    {
      manager := new DbSyncManager(builderConfig);
    }
  }
}
