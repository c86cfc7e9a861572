# Site-update snapshot of the Jetpack JSON API module

This project models the one piece of logic in Jetpack's JSON API module
(`modules/json-api.php`): the routine that runs on every page load and
records in the Jetpack option `wp_updates` which updates the site has
available, together with whether
`WP_Automatic_Updater::is_vcs_checkout('WP_PLUGINS_DIR')` reports a
version-control checkout. The argument at json-api.php:81 is the literal name
`'WP_PLUGINS_DIR'`, not the path of the plugin directory. The answer comes from
an expensive probe. It is cached for one day in the transient `jetpack_is_vcs`.

- `wrappers.dfy`: module `Wrappers`, the `Option` type used for host answers that may be missing.
- `php_values.dfy`: module `PhpValues`. It holds the PHP values the routine handles, PHP's
  `(bool)` cast (`ToBool`) and `empty()` test (`EmptyAt`), and `strval()` (`Strval`). `Strval`
  includes the decimal printing of integers and a proof that this printing reads back.
- `json_api.dfy`: module `JsonApi`. It holds the pure specification functions (`Snapshot`,
  `VcsString`, `GetTransient`, `VcsAnswer`, `VcsCacheAfter`, `VcsCalls`), lemmas about the snapshot
  and the one-day cache, and the class `Site`.
  - `Site` holds the option store `options` and the transient store `transients` as map fields.
  - A ghost trace `calls` records every interaction with the host, in order.
  - Its methods `IsVcs` (`jetpack_json_api_is_vcs`) and `GetSiteUpdates`
    (`jetpack_json_api_get_site_updates`) update these fields step by step, as the PHP does.
  - Each method's `ensures` ties the new stores and the new trace to the specification functions.

The host is not modelled; its answers are inputs. A `Host` record carries, for one run:
- whether this is the main site;
- the `counts` sub-array of `wp_get_update_data()` (None when it is not set);
- the preferred core update (None when the host returns false);
- the result of `WP_Automatic_Updater::is_vcs_checkout`.

The clock is a `now` parameter. Transients carry an explicit expiry second.

Where the function's documentation (`@return string ( '1' | '0' )`, json-api.php:74) and its code
differ, the model follows the code:
- On a cache hit, `jetpack_json_api_is_vcs` returns the cached value as is. That value need not be
  `'1'` or `'0'`. The values this code writes itself are non-empty strings (`StringVcsCache`), and for
  the boolean answer of the probe they are `'1'` or `'0'` (`ZeroOneCache`). `VcsCacheAfter` keeps both
  invariants, and under them `VcsAnswer` returns such a string.

Three further points of the code:
- `jetpack_json_api_is_vcs` returns the string; the conversion to a boolean is the `(bool)` cast in
  its caller (line 65).
- `wp_version` is always null. `$wp_version` at line 56 is a local that is never assigned, so it is
  never set, although the key's name suggests the running version was meant.
- `wp_update_version` also stays in the snapshot, with its value, when `counts` already carries that
  key and no upgrade is offered. `SnapshotContents` states this case.

`Strval` also states that a non-negative integer's string reads back as that integer
(`DecimalRoundTrip`). The cache relies only on truthiness. This fact is kept so that `strval` is
pinned down on integers, and not only its truthiness.

## Model

| member | source | states |
|---|---|---|
| `JsonApi.Site.GetSiteUpdates` | modules/json-api.php:42-67 | On a subsite: `wp_updates` becomes the empty array. The transients are unchanged. The only host interactions are the main-site query and that one option write. On the main site: `wp_updates` becomes `Snapshot` of the counts, the preferred update and the cache's answer. No other option changes. The transients become `VcsCacheAfter`. The trace is the main-site query, then the update-data query, then the preferred-update query exactly when the counts report a core update, then the cache's calls, then exactly one write of the assembled map. |
| `JsonApi.SnapshotContents` | modules/json-api.php:51-65 | Every `counts` entry except `wp_version`, `wp_update_version` and `is_vcs` is kept with its value. No other keys appear, so with no counts only those three keys can be present. `wp_version` is present and null. `wp_update_version` is present iff (the `wordpress` count is non-empty and the preferred update's response is `'upgrade'`) or counts already had that key. In the first case it equals the update's `current`, otherwise the value `counts` held. `is_vcs` is present and is the boolean truthiness of the cache's answer. |
| `JsonApi.UpgradeScenario` | modules/json-api.php:58-63 | With `wordpress` = 1 and an `'upgrade'` offer for 6.5, the snapshot's `wp_update_version` is 6.5. |
| `JsonApi.NoCoreUpdateScenario` | modules/json-api.php:58 | With `wordpress` = 0, the snapshot has no `wp_update_version`, whatever the preferred update is. |
| `JsonApi.Site.IsVcs` | modules/json-api.php:76-92 | Returns `VcsAnswer` of the old transients. The transient store becomes `VcsCacheAfter`. The trace grows by `VcsCalls`: the transient read; on a miss, also one probe and one write of the answer with a one-day lifetime. |
| `JsonApi.VcsAnswer` | modules/json-api.php:77-91 | On a hit, the result is the cached value unchanged. On a miss, it is the probe's string. It is never false. It is a non-empty string whenever the cache held one. It is `'1'` or `'0'` whenever the cache held only those and the probe is boolean. |
| `JsonApi.VcsCacheAfter` | modules/json-api.php:79-89 | A hit leaves the store unchanged. After a miss, a read of `jetpack_is_vcs` at any time up to one day later returns the answer. No other transient changes. A cache holding only non-empty strings keeps holding only non-empty strings. A cache holding only `'1'`/`'0'` keeps holding only those when the probe is boolean. |
| `JsonApi.VcsCalls` | modules/json-api.php:77-88 | The call starts with the transient read. The probe runs exactly on a miss. |
| `JsonApi.ProbeRunsOnceOnMiss` | modules/json-api.php:79-88 | The probe occurs once in the calls on a miss and never on a hit. A miss ends with the answer written to `jetpack_is_vcs` with a lifetime of one day. |
| `JsonApi.GetTransient` | modules/json-api.php:77-79 | A missing or expired entry reads as false. A live entry reads as its stored value. |
| `JsonApi.CachedAnswerLastsADay` | modules/json-api.php:69-88 | A call within a day of a miss does not probe. It returns the first call's answer, whatever the probe would say by then. |
| `JsonApi.CachedAnswerExpires` | modules/json-api.php:88 | A call more than a day after a miss probes again and returns the new probe's string. |
| `JsonApi.VcsString` | modules/json-api.php:83-87 | The stored string is never empty. A boolean probe gives `'1'` or `'0'`. For any non-array probe result, the string is truthy exactly when the result is. |
| `PhpValues.Strval` | modules/json-api.php:83 | For every non-array value, the string is truthy exactly when the value is. A non-negative integer's string reads back as that integer. |
| `PhpValues.NatToDecimal` | modules/json-api.php:83 | The decimal form `strval` gives an integer is non-empty and made only of digits. It is `"0"` exactly for zero. |
| `PhpValues.DecimalRoundTrip` | modules/json-api.php:83 | Reading back the decimal form of `n` gives `n`. |

## Left out

- Hook registration (`add_action`, lines 12-17) and `jetpack_json_api_load_module` (lines 94-98): these only wire callbacks into the host's lifecycle.
- `Host.probe` and `VcsProbe`: the probe's argument, the literal `'WP_PLUGINS_DIR'` (lines 81 and 83), is not modelled. The probe is represented only by its result.
- The `Jetpack_Sync::sync_options` / `sync_posts` declarations (lines 19-35): these are calls into a synchronisation subsystem that is not part of this model.
- `jetpack_json_api_configuration_load` (lines 100-107): it handles a POST request, checks a nonce, redirects and exits, so it is request I/O.
- `jetpack_json_api_configuration_screen` and `jetpack_json_api_setting_updated_notice` (lines 109-136): they only print HTML and translated strings.
- `is_main_site`, `wp_get_update_data`, `get_preferred_from_update_core` and `WP_Automatic_Updater::is_vcs_checkout` are host functions that are not part of this model. Their answers are the fields of `Host`. The `include_once` at line 80 has no counterpart.
- `JsonApi.GetTransient`: it reads an expired entry as false but does not delete it, as WordPress's `get_transient` does. For `jetpack_is_vcs` this makes no difference, because a miss is always followed by a write of that key.
- `set_transient` with a lifetime of 0, which never expires, is not modelled. This code always passes one day.
- `Jetpack_Options` stores `wp_updates` under a prefixed name in the host. The model keys the option store by the unprefixed name the code uses.
- PHP arrays are ordered; the model's maps are not. The order of keys in the stored snapshot is not modelled.
- `JsonApi.Host`: `counts` is taken to be an array when it is set. A set scalar `counts` makes the PHP write into a non-array, and that case is not modelled.
- `PhpValues.Value`: floats and objects are not modelled. `strval` of an array gives `"Array"`, but PHP's accompanying warning is not modelled.
- Races between concurrent requests filling the cache are not modelled. The model runs one request at a time.
