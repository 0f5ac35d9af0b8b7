# GeoPress settings store, version migrator and geocoder

GeoPress is a WordPress plugin that adds geographic tags to posts. This project
models two parts of it:

- **The settings store and version migrator of the `GeoPress` class** (`geopress.php`).
  - The plugin keeps one record, a key/value array, under the host option `geopress_settings`.
  - `get_option` reads one key of it, and a missing key reads as `''`.
  - `set_option` rewrites the whole record with one key changed.
  - `add_settings` installs the default record when none exists. It also appends the mapufacture ping URL to `ping_sites`, unless that option already mentions mapufacture.
  - `admin_upgrade` compares the stored version with `'300'`.
  - Releases before 3.0.0 kept each setting as a host option of its own, named `_geopress_<name>`. When a record exists and the presence of `_geopress_map_format`, a missing version or a version that `switch` files under `'000'` marks such a store, `admin_upgrade` migrates the fourteen legacy options into the record. It does this with `admin_migrate_option`, which converts `true`/`'true'` to `'on'` and deletes the legacy option. It then stamps the record with version `'300'` and writes it back.
- **The geocoding dispatcher `GeoPressGeocoder`** (`includes/geopress-geocoder.php`).
  - Its provider table maps `microsoft7`, `cloudmade`, `googlev3` and `yahoo` to a handler and says whether each provider needs an API key.
  - `geocode(provider, query, key)` rejects a bad provider, then an empty query, then a missing key.
  - Otherwise it passes the URL-encoded query to the provider's handler. The handler makes one HTTP GET and returns the uniform result `{status, http-code, service-code, lat, lon}`.

Modules:

- `Wrappers` and `Php` (`php.dfy`): the fragments of PHP's runtime semantics the plugin relies on.
  - `empty` on strings.
  - Loose `==` and `switch` between numeric strings and numbers.
  - Integer-to-string conversion.
  - Literal `preg_match`.
- `GeoPress` (`geopress.dfy`): the store, and the plugin object.
  - The host option table is a map in which a missing option reads as `false`.
  - Every `update_option`/`delete_option` call is a `Write`.
  - Each operation is specified by a function that returns the writes the operation makes (`SetOptionLog`, `AddSettingsLog`, `MigrateOptionSpec`, `MigrateAll`, `UpgradeSpec`).
  - The class `OptionStore` holds the host table and a ghost log of all writes. Its methods are the PHP methods, step by step. Each method is proved to leave the table `Apply(old table, writes)` and to append exactly those writes to the log.
- `GeoPressProofs` (`geopress_proofs.dfy`): what those writes do to the store.
- `Geocoder` (`geocoder.dfy`): the provider table, the handlers and `geocode`, with the HTTP call and `urlencode` as function parameters.
  - `Uniform` is one reference contract that all four handlers meet. Per provider it fixes where the service code is read, which value of it means success, and where the coordinates are found.
- `GeocoderProofs` (`geocoder_proofs.dfy`): the order of the checks, and that a rejected call makes no request.

## Model

| member | source | states |
|---|---|---|
| GeoPress.Lookup | geopress.php:74-81 | a key present in an array record yields its value; a missing key, or a record that is not an array, yields `''` |
| GeoPress.OptionStore.Settings | geopress.php:84-86 | `get_option()` without a key yields the stored record, or `false` when the host has none |
| GeoPress.OptionStore.GetOption | geopress.php:70-87 | `get_option($key)` on the current host table is the record lookup of that key |
| GeoPressProofs.AbsentAndEmptyAlike | geopress.php:77-81 | a missing key, a key holding `''` and a missing record all read as `''` |
| GeoPress.Assign | geopress.php:98 | `$options[$key] = $value` succeeds exactly on an array or on `false` (which becomes an array). The key then holds the value, and every other key is present exactly when it was in the array, with its old value |
| GeoPress.OptionStore.SetOption | geopress.php:96-100 | the new host table is the old one after the writes of `SetOptionLog`; exactly those writes are made; `ok` says whether a write happened |
| GeoPressProofs.SetOptionOnlyChangesKey | geopress.php:96-100 | on an array or missing record, set_option makes one write, to `geopress_settings`; the record then maps the key to the value, every other key is kept or absent as before, and no other option changes |
| GeoPressProofs.GetAfterSet | geopress.php:70-100 | after set_option the key reads back as the value set, and every other key reads as before |
| GeoPressProofs.SetOptionOnScalarRecord | geopress.php:97-99 | a record that is a scalar other than `false` cannot take a key, so nothing is written |
| GeoPress.OptionStore.constructor | geopress.php:13-15 | the marker is the plugin URL followed by `images/flag.png`; the log starts empty |
| GeoPress.OptionStore.AddSettings | geopress.php:111-148 | the new table is the old one after the writes of `AddSettingsLog`; `installed` holds exactly when the record was not an array |
| GeoPressProofs.DefaultSettingsShape | geopress.php:118-137 | the default record has installed `'on'`, version `'300'`, the plugin's marker, width `'400'`, height `'200'`, map format `'openlayers'`, overview `''`, add-map `0` and zoom `'11'` |
| GeoPressProofs.WithPingMentionsMapufacture | geopress.php:140-141 | `ping_sites` with the ping URL appended mentions mapufacture |
| GeoPressProofs.PingSitesOnce | geopress.php:139-142 | after the ping update, a second one writes nothing |
| GeoPressProofs.AddSettingsEffect | geopress.php:111-148 | with a record present, add_settings writes nothing. Otherwise the record becomes the defaults and `ping_sites` mentions mapufacture. A list that already did is left alone; any other list becomes itself, a newline and `http://mapufacture.com/georss/ping/api`. No other option changes |
| GeoPressProofs.AddSettingsIdempotent | geopress.php:116-146 | a second add_settings writes nothing |
| GeoPress.LegacyValue | geopress.php:184-186 | `true` and `'true'` become `'on'`; every other value is kept unchanged |
| GeoPress.OptionStore.MigrateOption | geopress.php:180-190 | the returned settings, the new table and the writes are those of `MigrateOptionSpec` |
| GeoPressProofs.MigrateOptionEffect | geopress.php:180-190 | a legacy option that reads other than `false` is copied, converted, into the key, other keys are kept, no key but that one is added, and the option is deleted from the store; an option reading `false` changes nothing |
| GeoPress.OptionStore.MigrateLegacyOptions | geopress.php:306-321 | the fourteen migrations run in source order, each on the store the previous ones left: the result, the new table and the writes are those of `MigrateAll` over the legacy table |
| GeoPressProofs.MigrateAllRemovesLegacy | geopress.php:308-321 | every write of the table migration deletes one of the table's legacy options |
| GeoPressProofs.MigrateAllStore | geopress.php:308-321 | after the table migration every legacy option of the table reads `false`, and every other option is unchanged |
| GeoPressProofs.MigrateAllOtherKey | geopress.php:308-321 | a record key that no table entry names is kept or absent as before |
| GeoPressProofs.MigrateAllEntry | geopress.php:308-321 | in a table with distinct entries, each key takes its converted legacy value when the option reads other than `false`, and keeps its previous value otherwise |
| GeoPressProofs.LegacyTableDistinct | geopress.php:308-321 | no two of the fourteen calls share a record key or a legacy option |
| GeoPress.OptionStore.AdminUpgrade | geopress.php:197-346 | the new table and the writes are those of `UpgradeSpec`; `upgradeDatabase` says whether the table routines run |
| GeoPress.EffectiveSettings | geopress.php:225-230 | a present `_geopress_map_format` forces version `'000'`; otherwise the record is unchanged; every other key is kept or absent as before |
| GeoPress.CurrentVersion | geopress.php:246-251 | the stored version when there is one; a missing version selects the `'000'` case |
| GeoPress.SwitchMatches | geopress.php:305-323 | the loose case test of `switch`: the label's own string and its integer value select the case, and an array selects none |
| GeoPressProofs.UpgradeAtCurrentVersionWritesNothing | geopress.php:225-235 | with version exactly `'300'` and no legacy `_geopress_map_format`, nothing is written and the table routines do not run |
| GeoPressProofs.UpgradeUnknownVersionWritesNothing | geopress.php:305-330 | a version matching neither `'000'` nor `'300'` reaches `default`: nothing is written and the table routines do not run |
| GeoPressProofs.UpgradeWithoutRecord | geopress.php:238-243 | without an array record the upgrade does what add_settings does |
| GeoPressProofs.SwitchLabels | geopress.php:305-323 | `'000'` selects the `'000'` case, and `'300'` does not select it |
| GeoPressProofs.UpgradeMigrationShape | geopress.php:225-336 | on a store marked as legacy, the upgrade runs the whole table migration and then writes the migrated record stamped `'300'` |
| GeoPressProofs.UpgradeWritesRecordOnce | geopress.php:305-336 | on such a store the record is written once, as the last write; every earlier write deletes a legacy option; the table routines run |
| GeoPressProofs.LegacyProbeInTable | geopress.php:225-313 | `_geopress_map_format`, the option that marks a legacy store, is among the migrated ones |
| GeoPressProofs.UpgradeMigratesEntry | geopress.php:305-336 | after a migrating upgrade the record is at version `'300'` and each legacy option reads `false`. Its key holds the converted legacy value when the option was present, and its previous value otherwise |
| GeoPressProofs.UpgradeMigrationFrame | geopress.php:305-336 | a migrating upgrade changes no option except the record and the legacy options |
| GeoPressProofs.UpgradeKeepsOtherKeys | geopress.php:305-336 | a migrating upgrade keeps every record key that is neither `version` nor a migrated setting |
| GeoPressProofs.UpgradeNotIdempotentWithoutRecord | geopress.php:225-243 | with no record but a legacy map_format option, the first upgrade only installs the defaults and leaves that option in place; the store is then one that migrates, so the second upgrade runs the table migration, writes, and runs the table routines |
| GeoPressProofs.UpgradeNotIdempotentExample | geopress.php:225-243 | a store holding only `_geopress_map_format` gets a non-empty second upgrade |
| GeoPressProofs.UpgradeIdempotent | geopress.php:197-346 | once a record exists, or when no legacy map_format option would re-trigger a migration, a second upgrade writes nothing and runs no table routines |
| Geocoder.LooselyEquals | includes/geopress-geocoder.php:94-193 | the handlers' `$code == 'token'`: a string equal to the token always matches; null matches only `''`; arrays and objects never match |
| Geocoder.BingUrl | includes/geopress-geocoder.php:9 | the Bing URL starts with the endpoint and the query, and ends with the key |
| Geocoder.YahooUrl | includes/geopress-geocoder.php:10 | the Yahoo URL starts with the endpoint and the query, and ends with the key |
| Geocoder.CloudMadeUrl | includes/geopress-geocoder.php:11 | the CloudMade URL has the key as its first path segment and ends with the query |
| Geocoder.GoogleUrl | includes/geopress-geocoder.php:12 | the Google URL starts with the endpoint and the query, and carries no key |
| Geocoder.BingGeocode | includes/geopress-geocoder.php:78-109 | the result meets the uniform contract with statusDescription `'OK'`, the first resource's point coordinates and the Bing URL |
| Geocoder.YahooGeocode | includes/geopress-geocoder.php:111-142 | the result meets the uniform contract with ResultSet.Error `'0'`, the first result's latitude/longitude and the Yahoo URL |
| Geocoder.GoogleV3Geocode | includes/geopress-geocoder.php:144-175 | the result meets the uniform contract with status `'OK'`, geometry.location lat/lng of the first result and the Google URL, which ignores the key |
| Geocoder.CloudMadeGeocode | includes/geopress-geocoder.php:177-208 | the result meets the uniform contract with found `'1'`, the first feature's centroid coordinates and the CloudMade URL |
| Geocoder.Dispatch | includes/geopress-geocoder.php:63-65 | the handler named in the table meets the uniform contract for its own URL |
| Geocoder.IsValidProvider | includes/geopress-geocoder.php:68-76 | a provider is valid exactly when it is given and is a key of the provider table |
| Geocoder.Geocode | includes/geopress-geocoder.php:48-66 | bad provider, then empty query, then empty key for a keyed provider, each returned as a status alone. Otherwise the handler's uniform result for the URL of the URL-encoded query |
| GeocoderProofs.BadProviderExactly | includes/geopress-geocoder.php:49-51 | the status is `bad-provider` exactly when the provider is not one of the four, whatever the query and key |
| GeocoderProofs.EmptyKeyExactly | includes/geopress-geocoder.php:19-60 | the status is `empty-key` exactly when the provider is microsoft7, cloudmade or yahoo, the query is non-empty and the key is missing or empty |
| GeocoderProofs.GoogleNeverEmptyKey | includes/geopress-geocoder.php:28-31 | googlev3 never answers `empty-key` |
| GeocoderProofs.GoogleNeedsNoKey | includes/geopress-geocoder.php:144-175 | googlev3 with a non-empty query and no key makes its request and answers from it |
| GeocoderProofs.RejectionMakesNoRequest | includes/geopress-geocoder.php:48-60 | a rejected call gives the same result whatever the network does |
| GeocoderProofs.SingleRequest | includes/geopress-geocoder.php:62-65 | an accepted call depends on the network only through the one provider URL it requests |
| GeocoderProofs.UniformIsFunctional | includes/geopress-geocoder.php:78-208 | the uniform contract determines the whole result from the HTTP outcome |
| GeocoderProofs.MalformedResponsesFail | includes/geopress-geocoder.php:86-101 | a transport error, a non-200 code, or a body that did not decode to an object gives `failed` with no coordinates. A transport error leaves both codes empty; a non-200 code leaves the service code empty |
| GeocoderProofs.BingSample | includes/geopress-geocoder.php:78-109 | a 200 Bing response with statusDescription `OK` and point `[37.42, -122.08]` gives `ok` with lat 37.42 and lon -122.08 |
| GeocoderProofs.YahooEmptyQuery | includes/geopress-geocoder.php:53-58 | the query check comes before the key check: an empty query, including `'0'`, is `empty-query` even when the key is also missing |
| GeocoderProofs.NumericServiceCodes | includes/geopress-geocoder.php:127-193 | the loose comparison accepts Yahoo's error code `'0'` as a number, a numeric string or `false` (but not `true`), and CloudMade's count `'1'` as a number, a numeric string or `true`; it rejects `'ok'` for `'OK'`, and null |

## Left out

- **Hooks and logging:** the host's hook registration (`__construct`, `plugins_loaded`, `init`, `admin_init`), `load_plugin_textdomain` and every `error_log` call are host lifecycle and logging.
- **Database tables:** `admin_check_database` and `admin_upgrade_database` issue database DDL. The model only says whether they run (`AddSettings`'s `installed`, `AdminUpgrade`'s `upgradeDatabase`).
- GeoPress.OptionStore.AdminUpgrade: on the path without a record, `upgradeDatabase` is true because `add_settings` runs the table routines itself. The PHP local `$upgrade_database` is never set on that path, and it is undefined (so false) on the `default` path.
- **The settings filter:** the `geopress_default_settings` filter is taken to be the identity, since other plugins' filters are not modelled.
- **The 14 migration calls:** these straight-line calls are modelled as a loop over a constant table that holds the same pairs in the same order.
- GeoPressProofs.UpgradeIdempotent: states idempotence only where the record is an array or no legacy `_geopress_map_format` option is present. On a store without a record but with that option, the source is not idempotent. The first upgrade takes the add_settings path, which ignores the legacy options (geopress.php:238-243); the second sees the option, forces `'000'` and migrates (geopress.php:225-230, 305-336). `GeoPressProofs.UpgradeNotIdempotentWithoutRecord` proves this.
- GeoPress.OptionStore.AddSettings: an array-valued `ping_sites` is read as the string `"Array"`, so the model appends a newline and the ping URL to `"Array"` and reports `installed`. That is PHP 7's outcome, where `preg_match` warns and returns null. Under PHP 8, `preg_match` (geopress.php:140) raises a TypeError after the record write at geopress.php:138; `ping_sites` is not written and the table routines (geopress.php:144-145) do not run. The model does not capture that error.
- GeoPressProofs.AddSettingsEffect: its statement about the new `ping_sites` covers an array-valued `ping_sites` with PHP 7's outcome, as above. Under PHP 8 that case ends in a TypeError after the record write.
- GeoPressProofs.DefaultSettingsShape: does not state that the default record has exactly sixteen keys. Only the listed entries are proved. The full record is the literal in `GeoPress.DefaultSettings`.
- **Values PHP can store but the model cannot:** `null`, floats and objects are not modelled.
  - A record that is a string is treated like any other scalar: `set_option` writes nothing. PHP's string-offset assignment and its errors are not modelled.
- **Numeric strings:** the loose comparison uses PHP 8 rules with numeric strings limited to plain digit strings.
  - Signs, fractions, exponents and surrounding blanks are not recognised.
  - The PHP 5/7 rule that made `0 == 'OK'` true is not modelled.
- **HTTP and JSON:** `wp_remote_get`, `is_wp_error` and `json_decode` are one function parameter, from URL to outcome (code and decoded body). PHP's `urlencode` is a function parameter with no properties assumed.
  - JSON numbers are reals.
  - A missing member or index yields null, with no notice.
  - Geocoder.Item: indexing a container of the wrong type yields null. In PHP, a string offset (`$s[0]`) yields that character, so a Bing `coordinates` given as the string `"37.42,-122.08"` gives lat `"3"` and lon `"7"` in the source. Indexing a decoded object (`{}[0]`) stops the request with a fatal error. The model does not capture either: both read as null, so such a reply with a matching service code answers `ok` with null coordinates.
  - GeoPress.Lookup: a record that is a string is treated as having no keys. PHP's `isset($s[$key])` holds for a digit key within the string, and `get_option` then returns that character; the model returns `''`.
- **The `http-code` entry:** it is the integer response code; the string form the host may return is not modelled.
- **The singleton:** `GeoPressGeocoder::get_instance` is object caching with no effect on results.
- **Other files:** the geotag list table in `includes/geopress-geotags.php` and the JavaScript files are not part of this model.
