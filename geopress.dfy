/**
 * The settings store and version migrator of the GeoPress plugin.
 *
 * The host's option store is a map from option name to value in which a
 * missing entry reads as `false`. The plugin keeps one record, a key/value
 * map, under `geopress_settings`; releases before 3.0.0 kept each setting as
 * an option of its own named `_geopress_<name>`.
 *
 * Every operation is specified by the writes it makes to the host store
 * (`update_option` is a Put, `delete_option` a Remove); the store after the
 * operation is the store before with those writes replayed (Apply).
 */
module GeoPress {
  import opened Wrappers
  import Php

  /** The values PHP keeps in an option: strings, booleans, integers and arrays. */
  datatype Value = VStr(s: string) | VBool(b: bool) | VInt(i: int) | VMap(m: map<string, Value>)

  /** The host's option table. */
  type Store = map<string, Value>

  /** One call into the host store: `update_option` or `delete_option`. */
  datatype Write = Put(name: string, value: Value) | Remove(name: string)

  const OPTIONS: string := "geopress_settings"
  const VERSION: string := "300"
  const LEGACY_VERSION: string := "000"
  const PING_SITES: string := "ping_sites"
  const PING_MARK: string := "mapufacture"
  const PING_URL: string := "http://" + PING_MARK + ".com/georss/ping/api"
  const LEGACY_PREFIX: string := "_geopress_"
  const MARKER_FILE: string := "images/flag.png"

  /** The name under which a pre-3.0.0 release stored one setting. */
  function LegacyName(option: string): string {
    LEGACY_PREFIX + option
  }

  /** The legacy option whose presence marks a store written by a pre-3.0.0 release. */
  const LEGACY_PROBE: string := LegacyName("map_format")

  /**
   * The fourteen pre-3.0.0 settings, as (record key, legacy option) pairs, in
   * the order the upgrade migrates them.
   */
  const LegacyTable: seq<(string, string)> := [
    ("map_width", "mapwidth"),
    ("map_height", "mapheight"),
    ("marker", "marker"),
    ("rss_enable", "rss_enable"),
    ("rss_format", "rss_format"),
    ("map_format", "map_format"),
    ("map_type", "map_type"),
    ("controls_pan", "controls_pan"),
    ("controls_map_type", "controls_map_type"),
    ("controls_overview", "controls_overview"),
    ("controls_zoom", "controls_zoom"),
    ("controls_scale", "controls_scale"),
    ("default_add_map", "default_add_map"),
    ("default_zoom_level", "default_zoom_level")
  ]

  /** The host's `get_option`: a missing option reads as false. */
  function Read(o: Store, name: string): Value {
    if name in o then o[name] else VBool(false)
  }

  function Perform(o: Store, w: Write): Store {
    match w
    case Put(n, v) => o[n := v]
    case Remove(n) => o - {n}
  }

  /** The store after the writes of `log`, in order. */
  function Apply(o: Store, log: seq<Write>): Store
    decreases |log|
  {
    if log == [] then o else Apply(Perform(o, log[0]), log[1..])
  }

  /** No write of `log` names `name`. */
  predicate Untouched(log: seq<Write>, name: string) {
    forall k :: 0 <= k < |log| ==> log[k].name != name
  }

  /**
   * PHP's string conversion of a value, as `.` applies it to `ping_sites`.
   * An array converts to "Array", which is PHP 7's reading in `preg_match`;
   * PHP 8's `preg_match` rejects an array instead.
   */
  function AsString(v: Value): string {
    match v
    case VStr(s) => s
    case VBool(b) => if b then "1" else ""
    case VInt(i) => Php.IntToString(i)
    case VMap(_) => "Array"
  }

  // ---------------------------------------------------------------------------
  // get_option / set_option

  /**
   * `get_option($key)` on a record: the stored value when the record is an
   * array holding the key, and the empty string otherwise.
   */
  function Lookup(record: Value, key: string): (r: Value)
    ensures record.VMap? && key in record.m ==> r == record.m[key]
    ensures !(record.VMap? && key in record.m) ==> r == VStr("")
  {
    if record.VMap? && key in record.m then record.m[key] else VStr("")
  }

  /**
   * PHP's `$options[$key] = $value`: an array gains or replaces the key, `false`
   * (which is also what a missing record reads as) becomes a one-entry array,
   * and any other scalar raises an error (None).
   */
  function Assign(record: Value, key: string, v: Value): (r: Option<map<string, Value>>)
    ensures r.Some? <==> record.VMap? || record == VBool(false)
    ensures r.Some? ==> key in r.value && r.value[key] == v
    ensures r.Some? ==> forall k :: k != key ==>
      (k in r.value <==> record.VMap? && k in record.m) && (k in r.value ==> r.value[k] == record.m[k])
  {
    match record
    case VMap(m) => Some(m[key := v])
    case VBool(b) => if b then None else Some(map[key := v])
    case _ => None
  }

  /** The writes of `set_option($key, $value)`: one rewrite of the whole record. */
  function SetOptionLog(o: Store, key: string, v: Value): seq<Write> {
    match Assign(Read(o, OPTIONS), key, v)
    case Some(m) => [Put(OPTIONS, VMap(m))]
    case None => []
  }

  // ---------------------------------------------------------------------------
  // add_settings

  /** The default record installed on activation (the filter hook is the identity). */
  function DefaultSettings(marker: string): map<string, Value> {
    map[
      "installed" := VStr("on"),
      "version" := VStr(VERSION),
      "map_width" := VStr("400"),
      "map_height" := VStr("200"),
      "marker" := VStr(marker),
      "rss_enable" := VStr("on"),
      "rss_format" := VStr("simple"),
      "map_format" := VStr("openlayers"),
      "map_type" := VStr("hybrid"),
      "controls_pan" := VStr("on"),
      "controls_map_type" := VStr("on"),
      "controls_zoom" := VStr("small"),
      "controls_overview" := VStr(""),
      "controls_scale" := VStr("on"),
      "default_add_map" := VInt(0),
      "default_zoom_level" := VStr("11")
    ]
  }

  /** `ping_sites` with the mapufacture ping URL appended on a line of its own. */
  function WithPing(sites: string): string {
    sites + "\n" + PING_URL
  }

  /** The writes to `ping_sites`: none when it already mentions mapufacture. */
  function PingSitesLog(o: Store): seq<Write> {
    var sites := AsString(Read(o, PING_SITES));
    if Php.Contains(sites, PING_MARK) then [] else [Put(PING_SITES, VStr(WithPing(sites)))]
  }

  /** No record yet (or a record that is not an array): the defaults must be installed. */
  predicate NeedsInstall(o: Store) {
    !Read(o, OPTIONS).VMap?
  }

  /** The writes of `add_settings`. */
  function AddSettingsLog(o: Store, marker: string): seq<Write> {
    if NeedsInstall(o) then [Put(OPTIONS, VMap(DefaultSettings(marker)))] + PingSitesLog(o) else []
  }

  // ---------------------------------------------------------------------------
  // admin_migrate_option

  /** A pre-3.0.0 boolean (`true` or 'true') becomes 'on'; anything else is kept. */
  function LegacyValue(v: Value): (r: Value)
    ensures r == VStr("on") || r == v
    ensures r == v <==> v != VBool(true) && v != VStr("true")
  {
    if v == VBool(true) || v == VStr("true") then VStr("on") else v
  }

  /** The settings array after a migration step, and the writes to the store. */
  datatype Migration = Migration(settings: map<string, Value>, log: seq<Write>)

  /** `admin_migrate_option($settings, $key, $option)`. */
  function MigrateOptionSpec(o: Store, settings: map<string, Value>, key: string, option: string): Migration {
    var name := LegacyName(option);
    var v := Read(o, name);
    if v != VBool(false) then Migration(settings[key := LegacyValue(v)], [Remove(name)])
    else Migration(settings, [])
  }

  /** The migration steps of `t` run in order, each on the store the previous ones left. */
  function MigrateAll(o: Store, settings: map<string, Value>, t: seq<(string, string)>): Migration
    decreases |t|
  {
    if t == [] then Migration(settings, [])
    else
      var done := MigrateAll(o, settings, t[..|t| - 1]);
      var step := MigrateOptionSpec(Apply(o, done.log), done.settings, t[|t| - 1].0, t[|t| - 1].1);
      Migration(step.settings, done.log + step.log)
  }

  // ---------------------------------------------------------------------------
  // admin_upgrade

  /** Does `switch` select the case labelled `caseLabel` for `v`? (PHP's loose `==`.) */
  predicate SwitchMatches(v: Value, caseLabel: string)
    requires Php.IsDecimal(caseLabel)
    ensures v == VStr(caseLabel) ==> SwitchMatches(v, caseLabel)
    ensures v == VInt(Php.DecimalValue(caseLabel)) ==> SwitchMatches(v, caseLabel)
    ensures v.VMap? ==> !SwitchMatches(v, caseLabel)
  {
    match v
    case VStr(s) => Php.LooseStringEquals(s, caseLabel)
    case VInt(i) => i == Php.DecimalValue(caseLabel)
    case VBool(b) => b == !Php.Empty(caseLabel)
    case VMap(_) => false
  }

  /** The record as the upgrade sees it: a present legacy probe forces version '000'. */
  function EffectiveSettings(o: Store, m: map<string, Value>): (r: map<string, Value>)
    ensures Read(o, LEGACY_PROBE) == VBool(false) ==> r == m
    ensures Read(o, LEGACY_PROBE) != VBool(false) ==> "version" in r && r["version"] == VStr(LEGACY_VERSION)
    ensures forall k :: k != "version" ==> (k in r <==> k in m) && (k in r ==> r[k] == m[k])
  {
    if Read(o, LEGACY_PROBE) != VBool(false) then m["version" := VStr(LEGACY_VERSION)] else m
  }

  /** The version the upgrade switches on: a missing version means '000'. */
  function CurrentVersion(s: map<string, Value>): (r: Value)
    ensures "version" in s ==> r == s["version"]
    ensures "version" !in s ==> SwitchMatches(r, LEGACY_VERSION)
  {
    if "version" in s then s["version"] else VStr(LEGACY_VERSION)
  }

  /** The writes of `admin_upgrade`, and whether the table-upgrade routines run. */
  datatype Upgrade = Upgrade(log: seq<Write>, upgradeDatabase: bool)

  function UpgradeSpec(o: Store, marker: string): Upgrade {
    var record := Read(o, OPTIONS);
    if !record.VMap? then Upgrade(AddSettingsLog(o, marker), true)
    else
      var s := EffectiveSettings(o, record.m);
      if "version" in s && s["version"] == VStr(VERSION) then Upgrade([], false)
      else
        var current := CurrentVersion(s);
        if SwitchMatches(current, LEGACY_VERSION) then
          var migrated := MigrateAll(o, s, LegacyTable);
          Upgrade(migrated.log + [Put(OPTIONS, VMap(migrated.settings["version" := VStr(VERSION)]))], true)
        else if SwitchMatches(current, VERSION) then
          Upgrade([Put(OPTIONS, VMap(s["version" := VStr(VERSION)]))], true)
        else
          Upgrade([], false)
  }

  // ---------------------------------------------------------------------------
  // Replaying writes

  lemma {:induction false} ApplyConcat(o: Store, a: seq<Write>, b: seq<Write>)
    ensures Apply(o, a + b) == Apply(Apply(o, a), b)
    decreases |a|
  {
    if a == [] {
      assert a + b == b;
    } else {
      assert (a + b)[1..] == a[1..] + b;
      ApplyConcat(Perform(o, a[0]), a[1..], b);
    }
  }

  // ---------------------------------------------------------------------------
  // The plugin object over the host store

  class OptionStore {
    /** The host's option table. */
    var options: Store
    /** Every write made to the host table, oldest first. */
    ghost var writes: seq<Write>
    /** GEOPRESS_DEFAULT_MARKER: the plugin's URL followed by the marker image. */
    const marker: string

    constructor (initial: Store, pluginUrl: string)
      ensures options == initial && writes == [] && marker == pluginUrl + MARKER_FILE
    {
      options := initial;
      writes := [];
      marker := pluginUrl + MARKER_FILE;
    }

    /** The host's `update_option`. */
    method Update(name: string, v: Value)
      modifies this
      ensures options == Apply(old(options), [Put(name, v)])
      ensures writes == old(writes) + [Put(name, v)]
    {
      options := options[name := v];
      writes := writes + [Put(name, v)];
    }

    /** The host's `delete_option`. */
    method Delete(name: string)
      modifies this
      ensures options == Apply(old(options), [Remove(name)])
      ensures writes == old(writes) + [Remove(name)]
    {
      options := options - {name};
      writes := writes + [Remove(name)];
    }

    /** `get_option()` without a key: the whole record, or false when there is none. */
    function Settings(): (r: Value)
      reads this
      ensures OPTIONS in options ==> r == options[OPTIONS]
      ensures OPTIONS !in options ==> r == VBool(false)
    {
      Read(options, OPTIONS)
    }

    /** `get_option($key)`. */
    function GetOption(key: string): (r: Value)
      reads this
      ensures r == Lookup(Read(options, OPTIONS), key)
    {
      Lookup(Settings(), key)
    }

    /** `set_option($key, $value)`: read the record, change one key, write it back. */
    method SetOption(key: string, value: Value) returns (ok: bool)
      modifies this
      ensures options == Apply(old(options), SetOptionLog(old(options), key, value))
      ensures writes == old(writes) + SetOptionLog(old(options), key, value)
      ensures ok <==> SetOptionLog(old(options), key, value) != []
    {
      var record := Settings();
      match Assign(record, key, value)
      case Some(m) =>
        Update(OPTIONS, VMap(m));
        ok := true;
      case None =>
        ok := false;
    }

    /** `add_settings`; `installed` says whether the defaults (and the table routines) ran. */
    method AddSettings() returns (installed: bool)
      modifies this
      ensures options == Apply(old(options), AddSettingsLog(old(options), marker))
      ensures writes == old(writes) + AddSettingsLog(old(options), marker)
      ensures installed == NeedsInstall(old(options))
    {
      var settings := Settings();
      installed := !settings.VMap?;
      if installed {
        Update(OPTIONS, VMap(DefaultSettings(marker)));
        var sites := AsString(Read(options, PING_SITES));
        if !Php.Contains(sites, PING_MARK) {
          Update(PING_SITES, VStr(WithPing(sites)));
        }
        ApplyConcat(old(options), [Put(OPTIONS, VMap(DefaultSettings(marker)))], PingSitesLog(old(options)));
      }
    }

    /** `admin_migrate_option(&$settings, $key, $option)`; the by-reference array is returned. */
    method MigrateOption(settings: map<string, Value>, key: string, option: string)
      returns (migrated: map<string, Value>)
      modifies this
      ensures migrated == MigrateOptionSpec(old(options), settings, key, option).settings
      ensures options == Apply(old(options), MigrateOptionSpec(old(options), settings, key, option).log)
      ensures writes == old(writes) + MigrateOptionSpec(old(options), settings, key, option).log
    {
      var name := LegacyName(option);
      var v := Read(options, name);
      migrated := settings;
      if v != VBool(false) {
        if v == VBool(true) || v == VStr("true") {
          v := VStr("on");
        }
        migrated := migrated[key := v];
        Delete(name);
      }
    }

    /** The fourteen `admin_migrate_option` calls of the '000' case, in order. */
    method MigrateLegacyOptions(settings: map<string, Value>) returns (migrated: map<string, Value>)
      modifies this
      ensures migrated == MigrateAll(old(options), settings, LegacyTable).settings
      ensures options == Apply(old(options), MigrateAll(old(options), settings, LegacyTable).log)
      ensures writes == old(writes) + MigrateAll(old(options), settings, LegacyTable).log
    {
      migrated := settings;
      for i := 0 to |LegacyTable|
        invariant migrated == MigrateAll(old(options), settings, LegacyTable[..i]).settings
        invariant options == Apply(old(options), MigrateAll(old(options), settings, LegacyTable[..i]).log)
        invariant writes == old(writes) + MigrateAll(old(options), settings, LegacyTable[..i]).log
      {
        ghost var done := MigrateAll(old(options), settings, LegacyTable[..i]);
        ghost var step := MigrateOptionSpec(options, migrated, LegacyTable[i].0, LegacyTable[i].1);
        migrated := MigrateOption(migrated, LegacyTable[i].0, LegacyTable[i].1);
        assert LegacyTable[..i + 1][..i] == LegacyTable[..i];
        ApplyConcat(old(options), done.log, step.log);
      }
      assert LegacyTable[..|LegacyTable|] == LegacyTable;
    }

    /**
     * `admin_upgrade`; `upgradeDatabase` says whether the table routines
     * (`admin_check_database`, `admin_upgrade_database`) run.
     */
    method AdminUpgrade() returns (upgradeDatabase: bool)
      modifies this
      ensures options == Apply(old(options), UpgradeSpec(old(options), marker).log)
      ensures writes == old(writes) + UpgradeSpec(old(options), marker).log
      ensures upgradeDatabase == UpgradeSpec(old(options), marker).upgradeDatabase
    {
      var settings := Settings();
      var upgradeSettings := false;
      upgradeDatabase := false;

      var s: map<string, Value> := if settings.VMap? then settings.m else map[];
      if settings.VMap? {
        var preV3 := Read(options, LEGACY_PROBE);
        if preV3 != VBool(false) {
          s := s["version" := VStr(LEGACY_VERSION)];
        }
        if "version" in s && s["version"] == VStr(VERSION) {
          return;
        }
      }

      if !settings.VMap? {
        var _ := AddSettings();
        upgradeDatabase := true;
      } else {
        var current := if "version" in s then s["version"] else VStr(LEGACY_VERSION);
        ghost var start := s;
        if SwitchMatches(current, LEGACY_VERSION) {
          s := MigrateLegacyOptions(s);
        }
        if SwitchMatches(current, LEGACY_VERSION) || SwitchMatches(current, VERSION) {
          s := s["version" := VStr(VERSION)];
          upgradeSettings := true;
          upgradeDatabase := true;
        }
        if upgradeSettings {
          Update(OPTIONS, VMap(s));
          if SwitchMatches(current, LEGACY_VERSION) {
            ApplyConcat(old(options), MigrateAll(old(options), start, LegacyTable).log, [Put(OPTIONS, VMap(s))]);
          }
        }
      }
    }
  }
}
