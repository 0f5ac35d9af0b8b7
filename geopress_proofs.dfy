/**
 * What the settings store and migrator guarantee, stated over the writes each
 * operation makes to the host store.
 */
module GeoPressProofs {
  import opened GeoPress
  import Php

  // ---------------------------------------------------------------------------
  // Replaying writes

  lemma {:induction false} ReadUntouched(o: Store, log: seq<Write>, name: string)
    requires Untouched(log, name)
    ensures Read(Apply(o, log), name) == Read(o, name)
    decreases |log|
  {
    if log != [] {
      ReadUntouched(Perform(o, log[0]), log[1..], name);
    }
  }

  lemma ReadAfterPut(o: Store, log: seq<Write>, name: string, v: Value)
    ensures Read(Apply(o, log + [Put(name, v)]), name) == v
  {
    ApplyConcat(o, log, [Put(name, v)]);
  }

  lemma ReadPastPut(o: Store, log: seq<Write>, name: string, v: Value, other: string)
    requires other != name
    ensures Read(Apply(o, log + [Put(name, v)]), other) == Read(Apply(o, log), other)
  {
    ApplyConcat(o, log, [Put(name, v)]);
  }

  // ---------------------------------------------------------------------------
  // get_option / set_option

  /** A key that is absent and a key that holds '' read the same; so does a missing record. */
  lemma AbsentAndEmptyAlike(m: map<string, Value>, key: string)
    ensures Lookup(VMap(m - {key}), key) == Lookup(VMap(m[key := VStr("")]), key) == VStr("")
    ensures Lookup(VBool(false), key) == VStr("")
  {
  }

  /** The record as an array, with a missing (false) record read as an empty one. */
  function RecordMap(v: Value): map<string, Value> {
    if v.VMap? then v.m else map[]
  }

  /** set_option makes one write, which changes only `key` in the record and nothing else in the store. */
  lemma SetOptionOnlyChangesKey(o: Store, key: string, v: Value)
    requires Read(o, OPTIONS).VMap? || Read(o, OPTIONS) == VBool(false)
    ensures var log := SetOptionLog(o, key, v);
      && |log| == 1 && log[0].name == OPTIONS
      && var after := Read(Apply(o, log), OPTIONS);
      && after.VMap? && key in after.m && after.m[key] == v
      && forall k :: k != key ==>
           (k in after.m <==> k in RecordMap(Read(o, OPTIONS))) &&
           (k in after.m ==> after.m[k] == RecordMap(Read(o, OPTIONS))[k])
    ensures forall n :: n != OPTIONS ==> Read(Apply(o, SetOptionLog(o, key, v)), n) == Read(o, n)
  {
  }

  /** get_option after set_option: the key reads back as the value written; every other key reads as before. */
  lemma GetAfterSet(o: Store, key: string, v: Value, other: string)
    requires Read(o, OPTIONS).VMap? || Read(o, OPTIONS) == VBool(false)
    ensures Lookup(Read(Apply(o, SetOptionLog(o, key, v)), OPTIONS), key) == v
    ensures other != key ==>
      Lookup(Read(Apply(o, SetOptionLog(o, key, v)), OPTIONS), other) == Lookup(Read(o, OPTIONS), other)
  {
    SetOptionOnlyChangesKey(o, key, v);
  }

  /** A record that is a scalar other than false cannot take a key: nothing is written. */
  lemma SetOptionOnScalarRecord(o: Store, key: string, v: Value)
    requires !Read(o, OPTIONS).VMap? && Read(o, OPTIONS) != VBool(false)
    ensures SetOptionLog(o, key, v) == []
  {
  }

  // ---------------------------------------------------------------------------
  // add_settings

  /** The default record is installed, at the current version, with the plugin's marker and the documented values. */
  lemma DefaultSettingsShape(marker: string)
    ensures DefaultSettings(marker)["installed"] == VStr("on")
    ensures DefaultSettings(marker)["version"] == VStr(VERSION)
    ensures DefaultSettings(marker)["marker"] == VStr(marker)
    ensures DefaultSettings(marker)["map_width"] == VStr("400") && DefaultSettings(marker)["map_height"] == VStr("200")
    ensures DefaultSettings(marker)["map_format"] == VStr("openlayers")
    ensures DefaultSettings(marker)["controls_overview"] == VStr("")
    ensures DefaultSettings(marker)["default_add_map"] == VInt(0)
    ensures DefaultSettings(marker)["default_zoom_level"] == VStr("11")
  {
  }

  /** The appended ping URL mentions mapufacture. */
  lemma {:induction false} WithPingMentionsMapufacture(sites: string)
    ensures Php.Contains(WithPing(sites), PING_MARK)
  {
    var w := WithPing(sites);
    var head := sites + "\n" + "http://";
    var i := |head|;
    assert w == head + PING_MARK + ".com/georss/ping/api";
    assert w[i..i + |PING_MARK|] == PING_MARK;
    Php.ContainsAt(w, PING_MARK, i);
  }

  /** The ping URL is never appended twice. */
  lemma PingSitesOnce(o: Store)
    ensures PingSitesLog(Apply(o, PingSitesLog(o))) == []
  {
    if PingSitesLog(o) != [] {
      WithPingMentionsMapufacture(AsString(Read(o, PING_SITES)));
    }
  }

  /**
   * add_settings leaves the store alone when the record exists; otherwise it
   * installs the default record and makes `ping_sites` mention mapufacture,
   * and touches no other option.
   */
  lemma AddSettingsEffect(o: Store, marker: string)
    ensures !NeedsInstall(o) ==> AddSettingsLog(o, marker) == []
    ensures NeedsInstall(o) ==>
      var after := Apply(o, AddSettingsLog(o, marker));
      && Read(after, OPTIONS) == VMap(DefaultSettings(marker))
      && Php.Contains(AsString(Read(after, PING_SITES)), PING_MARK)
      && (Php.Contains(AsString(Read(o, PING_SITES)), PING_MARK) ==> Read(after, PING_SITES) == Read(o, PING_SITES))
      && (!Php.Contains(AsString(Read(o, PING_SITES)), PING_MARK) ==>
            Read(after, PING_SITES) == VStr(WithPing(AsString(Read(o, PING_SITES)))))
      && forall n :: n != OPTIONS && n != PING_SITES ==> Read(after, n) == Read(o, n)
  {
    if NeedsInstall(o) {
      var log := AddSettingsLog(o, marker);
      var after := Apply(o, log);
      var first := [Put(OPTIONS, VMap(DefaultSettings(marker)))];
      ApplyConcat(o, first, PingSitesLog(o));
      ReadUntouched(Apply(o, first), PingSitesLog(o), OPTIONS);
      if PingSitesLog(o) != [] {
        WithPingMentionsMapufacture(AsString(Read(o, PING_SITES)));
      }
    }
  }

  /** A second add_settings writes nothing. */
  lemma AddSettingsIdempotent(o: Store, marker: string)
    ensures AddSettingsLog(Apply(o, AddSettingsLog(o, marker)), marker) == []
  {
    AddSettingsEffect(o, marker);
  }

  // ---------------------------------------------------------------------------
  // admin_migrate_option

  /**
   * A legacy option that reads other than false is copied into the settings
   * (true and 'true' as 'on') and deleted; one that reads false changes nothing.
   */
  lemma MigrateOptionEffect(o: Store, settings: map<string, Value>, key: string, option: string)
    ensures var mg := MigrateOptionSpec(o, settings, key, option);
      var v := Read(o, LegacyName(option));
      && (v != VBool(false) ==>
            && key in mg.settings && mg.settings[key] == LegacyValue(v)
            && (forall k :: k != key && k in settings ==> k in mg.settings && mg.settings[k] == settings[k])
            && (forall k :: k in mg.settings ==> k == key || k in settings)
            && Apply(o, mg.log) == o - {LegacyName(option)})
      && (v == VBool(false) ==> mg.settings == settings && mg.log == [])
  {
  }

  // ---------------------------------------------------------------------------
  // The migration of a whole table

  /** The legacy option names of a table. */
  function LegacyNames(t: seq<(string, string)>): set<string>
    decreases |t|
  {
    if t == [] then {} else LegacyNames(t[..|t| - 1]) + {LegacyName(t[|t| - 1].1)}
  }

  lemma {:induction false} LegacyNamesMember(t: seq<(string, string)>, j: nat)
    requires j < |t|
    ensures LegacyName(t[j].1) in LegacyNames(t)
    decreases |t|
  {
    if j < |t| - 1 {
      LegacyNamesMember(t[..|t| - 1], j);
    }
  }

  lemma {:induction false} LegacyNamesWitness(t: seq<(string, string)>, n: string) returns (j: nat)
    requires n in LegacyNames(t)
    ensures j < |t| && LegacyName(t[j].1) == n
    decreases |t|
  {
    if n == LegacyName(t[|t| - 1].1) {
      j := |t| - 1;
    } else {
      j := LegacyNamesWitness(t[..|t| - 1], n);
    }
  }

  lemma LegacyNameInjective(a: string, b: string)
    requires LegacyName(a) == LegacyName(b)
    ensures a == b
  {
    assert a == LegacyName(a)[|LEGACY_PREFIX|..];
    assert b == LegacyName(b)[|LEGACY_PREFIX|..];
  }

  /** Every write of `log` deletes one of `names`. */
  ghost predicate RemovesOnly(log: seq<Write>, names: set<string>) {
    forall k :: 0 <= k < |log| ==> log[k].Remove? && log[k].name in names
  }

  /** Every write of a table migration deletes one of the table's legacy options. */
  lemma {:induction false} MigrateAllRemovesLegacy(o: Store, s: map<string, Value>, t: seq<(string, string)>)
    ensures RemovesOnly(MigrateAll(o, s, t).log, LegacyNames(t))
    decreases |t|
  {
    if t != [] {
      var init := t[..|t| - 1];
      var done := MigrateAll(o, s, init);
      var step := MigrateOptionSpec(Apply(o, done.log), done.settings, t[|t| - 1].0, t[|t| - 1].1);
      MigrateAllRemovesLegacy(o, s, init);
      var log := done.log + step.log;
      forall k | 0 <= k < |log|
        ensures log[k].Remove? && log[k].name in LegacyNames(t)
      {
        if k >= |done.log| {
          assert log[k] == step.log[k - |done.log|];
          assert LegacyName(t[|t| - 1].1) in LegacyNames(t);
        } else {
          assert log[k] == done.log[k];
        }
      }
    }
  }

  /** After a table migration every legacy option of the table reads false; every other option is as before. */
  lemma {:induction false} MigrateAllStore(o: Store, s: map<string, Value>, t: seq<(string, string)>, n: string)
    ensures Read(Apply(o, MigrateAll(o, s, t).log), n) == if n in LegacyNames(t) then VBool(false) else Read(o, n)
    decreases |t|
  {
    if t != [] {
      var init := t[..|t| - 1];
      var done := MigrateAll(o, s, init);
      var mid := Apply(o, done.log);
      var step := MigrateOptionSpec(mid, done.settings, t[|t| - 1].0, t[|t| - 1].1);
      MigrateAllStore(o, s, init, n);
      ApplyConcat(o, done.log, step.log);
    }
  }

  /** No two entries of a table share a record key or a legacy option. */
  ghost predicate DistinctTable(t: seq<(string, string)>) {
    forall j, k :: 0 <= j < k < |t| ==> t[j].0 != t[k].0 && t[j].1 != t[k].1
  }

  /** A key no entry of the table names is left as it was. */
  lemma {:induction false} MigrateAllOtherKey(o: Store, s: map<string, Value>, t: seq<(string, string)>, key: string)
    requires forall j :: 0 <= j < |t| ==> t[j].0 != key
    ensures var r := MigrateAll(o, s, t).settings;
      (key in r <==> key in s) && (key in s ==> r[key] == s[key])
    decreases |t|
  {
    if t != [] {
      MigrateAllOtherKey(o, s, t[..|t| - 1], key);
    }
  }

  /**
   * Entry j of a table with distinct entries: its key takes the (converted)
   * value of its legacy option when that reads other than false, and is left
   * as it was otherwise.
   */
  lemma {:induction false} MigrateAllEntry(o: Store, s: map<string, Value>, t: seq<(string, string)>, j: nat)
    requires DistinctTable(t) && j < |t|
    ensures var r := MigrateAll(o, s, t).settings;
      var v := Read(o, LegacyName(t[j].1));
      && (v != VBool(false) ==> t[j].0 in r && r[t[j].0] == LegacyValue(v))
      && (v == VBool(false) ==> (t[j].0 in r <==> t[j].0 in s) && (t[j].0 in s ==> r[t[j].0] == s[t[j].0]))
    decreases |t|
  {
    var init := t[..|t| - 1];
    var last := |t| - 1;
    assert DistinctTable(init);
    var done := MigrateAll(o, s, init);
    if j == last {
      var name := LegacyName(t[last].1);
      if name in LegacyNames(init) {
        var i := LegacyNamesWitness(init, name);
        LegacyNameInjective(init[i].1, t[last].1);
        assert false;
      }
      MigrateAllStore(o, s, init, name);
      MigrateAllOtherKey(o, s, init, t[last].0);
    } else {
      MigrateAllEntry(o, s, init, j);
    }
  }

  lemma LegacyTableDistinct()
    ensures DistinctTable(LegacyTable)
  {
  }

  // ---------------------------------------------------------------------------
  // admin_upgrade

  /** At the current version, and with no legacy map_format option, admin_upgrade writes nothing. */
  lemma UpgradeAtCurrentVersionWritesNothing(o: Store, marker: string)
    requires Read(o, OPTIONS).VMap? && Read(o, LEGACY_PROBE) == VBool(false)
    requires "version" in Read(o, OPTIONS).m && Read(o, OPTIONS).m["version"] == VStr(VERSION)
    ensures UpgradeSpec(o, marker) == Upgrade([], false)
  {
  }

  /**
   * A version that selects no case of the switch reaches `default`: nothing
   * is written and the table routines do not run.
   */
  lemma UpgradeUnknownVersionWritesNothing(o: Store, marker: string)
    requires Read(o, OPTIONS).VMap? && Read(o, LEGACY_PROBE) == VBool(false)
    requires "version" in Read(o, OPTIONS).m
    requires !SwitchMatches(Read(o, OPTIONS).m["version"], LEGACY_VERSION)
    requires !SwitchMatches(Read(o, OPTIONS).m["version"], VERSION)
    ensures UpgradeSpec(o, marker) == Upgrade([], false)
  {
  }

  /** Without a record, admin_upgrade does what add_settings does. */
  lemma UpgradeWithoutRecord(o: Store, marker: string)
    requires NeedsInstall(o)
    ensures UpgradeSpec(o, marker) == Upgrade(AddSettingsLog(o, marker), true)
  {
  }

  /**
   * The stores on which the legacy options are migrated: a record exists and
   * a legacy map_format option is present, or the version is missing, or it
   * is one that `switch` files under '000'.
   */
  ghost predicate MigratesLegacy(o: Store) {
    && Read(o, OPTIONS).VMap?
    && (|| Read(o, LEGACY_PROBE) != VBool(false)
        || "version" !in Read(o, OPTIONS).m
        || SwitchMatches(Read(o, OPTIONS).m["version"], LEGACY_VERSION))
  }

  /** '000' selects its own case; '300' does not select the case of '000'. */
  lemma SwitchLabels()
    ensures SwitchMatches(VStr(LEGACY_VERSION), LEGACY_VERSION)
    ensures !SwitchMatches(VStr(VERSION), LEGACY_VERSION)
  {
    assert Php.DecimalValue(LEGACY_VERSION) == 0 by {
      assert LEGACY_VERSION[..2] == "00" && "00"[..1] == "0";
    }
    assert Php.DecimalValue(VERSION) == 300 by {
      assert VERSION[..2] == "30" && "30"[..1] == "3";
    }
  }

  /** On a migrating store the upgrade runs the whole table migration, then writes the record. */
  lemma UpgradeMigrationShape(o: Store, marker: string)
    requires MigratesLegacy(o)
    ensures var s := EffectiveSettings(o, Read(o, OPTIONS).m);
      var migrated := MigrateAll(o, s, LegacyTable);
      UpgradeSpec(o, marker) ==
        Upgrade(migrated.log + [Put(OPTIONS, VMap(migrated.settings["version" := VStr(VERSION)]))], true)
  {
    SwitchLabels();
  }

  /**
   * On a migrating store the record is written exactly once, as the last
   * write; every write before it deletes a legacy option.
   */
  lemma UpgradeWritesRecordOnce(o: Store, marker: string)
    requires MigratesLegacy(o)
    ensures var log := UpgradeSpec(o, marker).log;
      && UpgradeSpec(o, marker).upgradeDatabase
      && |log| >= 1
      && log[|log| - 1].Put? && log[|log| - 1].name == OPTIONS
      && RemovesOnly(log[..|log| - 1], LegacyNames(LegacyTable))
  {
    UpgradeMigrationShape(o, marker);
    var s := EffectiveSettings(o, Read(o, OPTIONS).m);
    var migrated := MigrateAll(o, s, LegacyTable);
    var log := UpgradeSpec(o, marker).log;
    MigrateAllRemovesLegacy(o, s, LegacyTable);
    assert log[..|log| - 1] == migrated.log;
  }

  lemma LegacyProbeInTable()
    ensures LEGACY_PROBE in LegacyNames(LegacyTable)
  {
    LegacyNamesMember(LegacyTable, 5);
  }

  /**
   * Entry j of the legacy table after a migrating upgrade: the record is at
   * version '300', the legacy option reads false, and the record key holds the
   * converted legacy value when the option read other than false (replacing
   * what the record held), and what the record held before otherwise.
   */
  lemma UpgradeMigratesEntry(o: Store, marker: string, j: nat)
    requires MigratesLegacy(o) && j < |LegacyTable|
    ensures var after := Apply(o, UpgradeSpec(o, marker).log);
      var record := Read(after, OPTIONS);
      var before := Read(o, OPTIONS).m;
      var key := LegacyTable[j].0;
      var v := Read(o, LegacyName(LegacyTable[j].1));
      && record.VMap? && "version" in record.m && record.m["version"] == VStr(VERSION)
      && Read(after, LegacyName(LegacyTable[j].1)) == VBool(false)
      && (v != VBool(false) ==> key in record.m && record.m[key] == LegacyValue(v))
      && (v == VBool(false) ==> (key in record.m <==> key in before) && (key in before ==> record.m[key] == before[key]))
  {
    UpgradeMigrationShape(o, marker);
    var s := EffectiveSettings(o, Read(o, OPTIONS).m);
    var migrated := MigrateAll(o, s, LegacyTable);
    var final := VMap(migrated.settings["version" := VStr(VERSION)]);
    var name := LegacyName(LegacyTable[j].1);
    ReadAfterPut(o, migrated.log, OPTIONS, final);
    LegacyNamesMember(LegacyTable, j);
    assert name != OPTIONS;
    ReadPastPut(o, migrated.log, OPTIONS, final, name);
    MigrateAllStore(o, s, LegacyTable, name);
    LegacyTableDistinct();
    MigrateAllEntry(o, s, LegacyTable, j);
  }

  /** A migrating upgrade changes no option other than the record and the legacy ones. */
  lemma UpgradeMigrationFrame(o: Store, marker: string, n: string)
    requires MigratesLegacy(o) && n != OPTIONS && n !in LegacyNames(LegacyTable)
    ensures Read(Apply(o, UpgradeSpec(o, marker).log), n) == Read(o, n)
  {
    UpgradeMigrationShape(o, marker);
    var s := EffectiveSettings(o, Read(o, OPTIONS).m);
    var migrated := MigrateAll(o, s, LegacyTable);
    ReadPastPut(o, migrated.log, OPTIONS, VMap(migrated.settings["version" := VStr(VERSION)]), n);
    MigrateAllStore(o, s, LegacyTable, n);
  }

  /** A migrating upgrade keeps every record key that is neither `version` nor a legacy setting. */
  lemma UpgradeKeepsOtherKeys(o: Store, marker: string, key: string)
    requires MigratesLegacy(o) && key != "version"
    requires forall j :: 0 <= j < |LegacyTable| ==> LegacyTable[j].0 != key
    ensures var record := Read(Apply(o, UpgradeSpec(o, marker).log), OPTIONS);
      var before := Read(o, OPTIONS).m;
      && record.VMap?
      && (key in record.m <==> key in before)
      && (key in before ==> record.m[key] == before[key])
  {
    UpgradeMigrationShape(o, marker);
    var s := EffectiveSettings(o, Read(o, OPTIONS).m);
    var migrated := MigrateAll(o, s, LegacyTable);
    ReadAfterPut(o, migrated.log, OPTIONS, VMap(migrated.settings["version" := VStr(VERSION)]));
    MigrateAllOtherKey(o, s, LegacyTable, key);
  }

  /**
   * Without a record but with a legacy map_format option, the first upgrade
   * only installs the defaults; the second then sees the legacy option,
   * forces version '000', migrates and writes again.
   */
  lemma UpgradeNotIdempotentWithoutRecord(o: Store, marker: string)
    requires NeedsInstall(o) && Read(o, LEGACY_PROBE) != VBool(false)
    ensures UpgradeSpec(o, marker).log == AddSettingsLog(o, marker)
    ensures Read(Apply(o, UpgradeSpec(o, marker).log), LEGACY_PROBE) == Read(o, LEGACY_PROBE)
    ensures MigratesLegacy(Apply(o, UpgradeSpec(o, marker).log))
    ensures UpgradeSpec(Apply(o, UpgradeSpec(o, marker).log), marker).log != []
    ensures UpgradeSpec(Apply(o, UpgradeSpec(o, marker).log), marker).upgradeDatabase
  {
    var after := Apply(o, AddSettingsLog(o, marker));
    AddSettingsEffect(o, marker);
    assert LEGACY_PROBE != OPTIONS && LEGACY_PROBE != PING_SITES;
    assert MigratesLegacy(after);
    UpgradeWritesRecordOnce(after, marker);
  }

  /** The counterexample: a store holding only the legacy map_format option. */
  lemma UpgradeNotIdempotentExample(marker: string)
    ensures var o := map[LEGACY_PROBE := VStr("google")];
      UpgradeSpec(Apply(o, UpgradeSpec(o, marker).log), marker).log != []
  {
    var o := map[LEGACY_PROBE := VStr("google")];
    assert LEGACY_PROBE != OPTIONS;
    UpgradeNotIdempotentWithoutRecord(o, marker);
  }

  /**
   * admin_upgrade is idempotent once a record exists (or no legacy map_format
   * option is around to trigger a migration after the defaults are installed):
   * running it again writes nothing.
   */
  lemma UpgradeIdempotent(o: Store, marker: string)
    requires Read(o, OPTIONS).VMap? || Read(o, LEGACY_PROBE) == VBool(false)
    ensures UpgradeSpec(Apply(o, UpgradeSpec(o, marker).log), marker) == Upgrade([], false)
  {
    var u := UpgradeSpec(o, marker);
    var after := Apply(o, u.log);
    LegacyProbeInTable();
    if NeedsInstall(o) {
      AddSettingsEffect(o, marker);
      assert Read(after, LEGACY_PROBE) == VBool(false);
      DefaultSettingsShape(marker);
    } else if MigratesLegacy(o) {
      UpgradeMigrationShape(o, marker);
      var s := EffectiveSettings(o, Read(o, OPTIONS).m);
      var migrated := MigrateAll(o, s, LegacyTable);
      var final := VMap(migrated.settings["version" := VStr(VERSION)]);
      ReadAfterPut(o, migrated.log, OPTIONS, final);
      ReadPastPut(o, migrated.log, OPTIONS, final, LEGACY_PROBE);
      MigrateAllStore(o, s, LegacyTable, LEGACY_PROBE);
    } else if u.log != [] {
      var final := u.log[0].value;
      assert u.log == [] + [Put(OPTIONS, final)];
      ReadAfterPut(o, [], OPTIONS, final);
      ReadPastPut(o, [], OPTIONS, final, LEGACY_PROBE);
    }
  }
}
