/**
 * The site-update snapshot of the JSON API module (modules/json-api.php):
 * on every page load the main site records, in the Jetpack option `wp_updates`,
 * which updates are available and whether
 * `WP_Automatic_Updater::is_vcs_checkout('WP_PLUGINS_DIR')` reports a
 * version-control checkout (its argument is that literal name, not the plugin
 * directory's path); the answer is cached for a day in the transient
 * `jetpack_is_vcs`.
 *
 * The host queries (`is_main_site`, `wp_get_update_data`,
 * `get_preferred_from_update_core`, `WP_Automatic_Updater::is_vcs_checkout`)
 * are answers handed in as a `Host` record, and the clock is a `now`
 * parameter. The option store and the transient store are map fields of
 * `Site`; a ghost trace records every host interaction in order.
 */
module JsonApi {
  import opened Wrappers
  import opened PhpValues

  /** The Jetpack option the snapshot is written to. */
  const UpdatesOption: string := "wp_updates"
  /** The transient caching the version-control answer. */
  const VcsTransient: string := "jetpack_is_vcs"
  /** WordPress's DAY_IN_SECONDS, the lifetime of the cached answer. */
  const DayInSeconds: int := 86400
  /** The snapshot keys the module sets itself, over whatever `counts` holds. */
  const SnapshotKeys: set<string> := {"wp_version", "wp_update_version", "is_vcs"}

  /** The preferred core update: its `response` (null when unset) and its `current` version. */
  datatype CoreOffer = CoreOffer(response: Value, current: Value)

  /**
   * What the host answers during one run: whether this is the main site, the
   * `counts` sub-array of the update data (None when it is not set), the
   * preferred core update (None when the host returns false), and the result
   * of the version-control probe.
   */
  datatype Host = Host(
    isMainSite: bool,
    counts: Option<map<string, Value>>,
    preferred: Option<CoreOffer>,
    probe: Value)

  /** A transient: its value and its expiry time, None for one that never expires. */
  datatype Transient = Transient(value: Value, expires: Option<int>)

  /** One interaction with the host, in the order the module performs them. */
  datatype HostCall =
    | MainSiteQuery
    | UpdateDataQuery
    | PreferredCoreQuery
    | TransientRead(key: string)
    | VcsProbe
    | TransientWrite(key: string, value: Value, ttl: int)
    | OptionWrite(key: string, value: Value)

  /** The `counts` the snapshot starts from: an absent one starts an empty array. */
  function CountsOf(counts: Option<map<string, Value>>): map<string, Value> {
    counts.GetOr(map[])
  }

  /** `! empty( $updates['wordpress'] )`: the counts report a core update. */
  predicate CoreUpdateCounted(counts: Option<map<string, Value>>) {
    !EmptyAt(CountsOf(counts), "wordpress")
  }

  /** `isset( $cur->response ) && $cur->response === 'upgrade'`. */
  predicate UpgradeOffered(preferred: Option<CoreOffer>) {
    preferred.Some? && preferred.value.response == Str("upgrade")
  }

  /**
   * `get_transient`: the stored value while it has not expired, and false on
   * a missing or expired entry (an entry is live up to and including its
   * expiry second).
   */
  function GetTransient(store: map<string, Transient>, key: string, now: int): (v: Value)
    ensures key !in store ==> v == Bool(false)
    ensures key in store && store[key].expires.Some? && store[key].expires.value < now ==> v == Bool(false)
    ensures key in store && (store[key].expires.None? || now <= store[key].expires.value) ==> v == store[key].value
    ensures v != Bool(false) ==> key in store && store[key].value == v
  {
    if key in store && (store[key].expires.None? || now <= store[key].expires.value)
    then store[key].value
    else Bool(false)
  }

  /**
   * The snapshot stored on the main site: `counts` (if any), then `wp_version`,
   * then `wp_update_version` when a core upgrade is offered, then `is_vcs` as
   * a boolean. `SnapshotContents` states what it holds.
   */
  function Snapshot(counts: Option<map<string, Value>>, preferred: Option<CoreOffer>, vcs: Value)
    : map<string, Value>
  {
    var updates := CountsOf(counts);
    var updates := updates["wp_version" := Null];
    var updates :=
      if !EmptyAt(updates, "wordpress") && UpgradeOffered(preferred)
      then updates["wp_update_version" := preferred.value.current]
      else updates;
    updates["is_vcs" := Bool(ToBool(vcs))]
  }

  /**
   * The snapshot keeps every entry of `counts` other than the three keys the
   * module sets, and has no other keys; `wp_version` is null;
   * `wp_update_version` is the offered version when the counts report a core
   * update and the offer is an upgrade, and otherwise whatever `counts` held
   * under that key, if anything; `is_vcs` is the truthiness of the answer.
   */
  lemma SnapshotContents(counts: Option<map<string, Value>>, preferred: Option<CoreOffer>, vcs: Value)
    ensures var u := Snapshot(counts, preferred, vcs);
      && (forall k :: k in CountsOf(counts) && k !in SnapshotKeys ==> k in u && u[k] == CountsOf(counts)[k])
      && (forall k :: k in u ==> k in SnapshotKeys || k in CountsOf(counts))
      && "wp_version" in u && u["wp_version"] == Null
      && ("wp_update_version" in u <==>
            (CoreUpdateCounted(counts) && UpgradeOffered(preferred)) || "wp_update_version" in CountsOf(counts))
      && (CoreUpdateCounted(counts) && UpgradeOffered(preferred) ==>
            u["wp_update_version"] == preferred.value.current)
      && (!(CoreUpdateCounted(counts) && UpgradeOffered(preferred)) && "wp_update_version" in CountsOf(counts) ==>
            u["wp_update_version"] == CountsOf(counts)["wp_update_version"])
      && "is_vcs" in u && u["is_vcs"] == Bool(ToBool(vcs))
  {
  }

  /**
   * The string the cache stores after a probe: `strval` of the probe result,
   * with an empty one replaced by '0'. It is never empty, a boolean probe
   * gives '1' or '0', and it is truthy exactly when a non-array probe result is.
   */
  function VcsString(probe: Value): (s: string)
    ensures s != ""
    ensures probe.Bool? ==> s == (if probe.b then "1" else "0")
    ensures !probe.Arr? ==> (ToBool(Str(s)) <==> ToBool(probe))
  {
    var s := Strval(probe);
    if !ToBool(Str(s)) then "0" else s
  }

  /** The cache holds a non-empty string for `jetpack_is_vcs`, if anything. */
  predicate StringVcsCache(store: map<string, Transient>) {
    VcsTransient in store ==> store[VcsTransient].value.Str? && store[VcsTransient].value.s != ""
  }

  /** The cache holds '1' or '0' for `jetpack_is_vcs`, if anything: what a boolean probe leaves there. */
  predicate ZeroOneCache(store: map<string, Transient>) {
    VcsTransient in store ==> store[VcsTransient].value in {Str("1"), Str("0")}
  }

  /**
   * What `jetpack_json_api_is_vcs` returns: the cached value as is on a hit,
   * the probed string on a miss. It is never false, and it is a non-empty
   * string whenever the cache held one.
   */
  function VcsAnswer(store: map<string, Transient>, now: int, probe: Value): (v: Value)
    ensures GetTransient(store, VcsTransient, now) != Bool(false) ==> v == GetTransient(store, VcsTransient, now)
    ensures GetTransient(store, VcsTransient, now) == Bool(false) ==> v == Str(VcsString(probe))
    ensures v != Bool(false)
    ensures StringVcsCache(store) ==> v.Str? && v.s != ""
    ensures ZeroOneCache(store) && probe.Bool? ==> v in {Str("1"), Str("0")}
  {
    var cached := GetTransient(store, VcsTransient, now);
    if cached == Bool(false) then Str(VcsString(probe)) else cached
  }

  /**
   * The transient store after `jetpack_json_api_is_vcs`: unchanged on a hit;
   * on a miss the answer is stored under `jetpack_is_vcs` and read back for
   * a whole day. No other transient changes.
   */
  function VcsCacheAfter(store: map<string, Transient>, now: int, probe: Value): (r: map<string, Transient>)
    ensures GetTransient(store, VcsTransient, now) != Bool(false) ==> r == store
    ensures GetTransient(store, VcsTransient, now) == Bool(false) ==>
              forall t :: now <= t <= now + DayInSeconds ==>
                GetTransient(r, VcsTransient, t) == VcsAnswer(store, now, probe)
    ensures r.Keys == store.Keys + {VcsTransient} || r == store
    ensures forall k :: k in store && k != VcsTransient ==> r[k] == store[k]
    ensures StringVcsCache(store) ==> StringVcsCache(r)
    ensures ZeroOneCache(store) && probe.Bool? ==> ZeroOneCache(r)
  {
    if GetTransient(store, VcsTransient, now) == Bool(false)
    then store[VcsTransient := Transient(Str(VcsString(probe)), Some(now + DayInSeconds))]
    else store
  }

  /** The host interactions of one `jetpack_json_api_is_vcs` call. */
  function VcsCalls(store: map<string, Transient>, now: int, probe: Value): (calls: seq<HostCall>)
    ensures |calls| > 0 && calls[0] == TransientRead(VcsTransient)
    ensures VcsProbe in calls <==> GetTransient(store, VcsTransient, now) == Bool(false)
  {
    [TransientRead(VcsTransient)] +
      if GetTransient(store, VcsTransient, now) == Bool(false)
      then [VcsProbe, TransientWrite(VcsTransient, Str(VcsString(probe)), DayInSeconds)]
      else []
  }

  /**
   * The probe runs exactly once on a miss and never on a hit, and a miss ends
   * with the answer written to the cache for one day.
   */
  lemma ProbeRunsOnceOnMiss(store: map<string, Transient>, now: int, probe: Value)
    ensures var calls := VcsCalls(store, now, probe);
      && multiset(calls)[VcsProbe] == (if GetTransient(store, VcsTransient, now) == Bool(false) then 1 else 0)
      && (GetTransient(store, VcsTransient, now) == Bool(false) ==>
            calls[|calls| - 1] == TransientWrite(VcsTransient, VcsAnswer(store, now, probe), DayInSeconds))
  {
  }

  /**
   * A second call within a day of a miss finds the answer of the first in
   * the cache, whatever the probe would say by then: the probe is not run again.
   */
  lemma CachedAnswerLastsADay(store: map<string, Transient>, now: int, later: int, probe: Value, laterProbe: Value)
    requires GetTransient(store, VcsTransient, now) == Bool(false)
    requires now <= later <= now + DayInSeconds
    ensures VcsProbe !in VcsCalls(VcsCacheAfter(store, now, probe), later, laterProbe)
    ensures VcsAnswer(VcsCacheAfter(store, now, probe), later, laterProbe) == VcsAnswer(store, now, probe)
  {
  }

  /** Once the day has passed, the next call misses and probes again. */
  lemma CachedAnswerExpires(store: map<string, Transient>, now: int, later: int, probe: Value, laterProbe: Value)
    requires GetTransient(store, VcsTransient, now) == Bool(false)
    requires later > now + DayInSeconds
    ensures VcsProbe in VcsCalls(VcsCacheAfter(store, now, probe), later, laterProbe)
    ensures VcsAnswer(VcsCacheAfter(store, now, probe), later, laterProbe) == Str(VcsString(laterProbe))
  {
  }

  /** A core count of 1 and an 'upgrade' offer of 6.5 put `wp_update_version` = 6.5 in the snapshot. */
  lemma UpgradeScenario(vcs: Value)
    ensures Snapshot(Some(map["wordpress" := Int(1)]), Some(CoreOffer(Str("upgrade"), Str("6.5"))), vcs)
              ["wp_update_version"] == Str("6.5")
  {
  }

  /** A core count of 0 leaves `wp_update_version` out, whatever the preferred update says. */
  lemma NoCoreUpdateScenario(preferred: Option<CoreOffer>, vcs: Value)
    ensures "wp_update_version" !in Snapshot(Some(map["wordpress" := Int(0)]), preferred, vcs)
  {
  }

  /** The Jetpack option store and the transient store of one site. */
  class Site {
    var options: map<string, Value>
    var transients: map<string, Transient>
    /** Every host interaction so far, oldest first. */
    ghost var calls: seq<HostCall>

    constructor (options: map<string, Value>, transients: map<string, Transient>)
      ensures this.options == options && this.transients == transients && calls == []
    {
      this.options := options;
      this.transients := transients;
      calls := [];
    }

    /**
     * `jetpack_json_api_is_vcs`: on a hit returns the cached value without
     * probing; on a miss probes once, stores the string for a day and
     * returns it.
     */
    method IsVcs(now: int, probe: Value) returns (isVcs: Value)
      modifies this`transients, this`calls
      ensures isVcs == VcsAnswer(old(transients), now, probe)
      ensures transients == VcsCacheAfter(old(transients), now, probe)
      ensures calls == old(calls) + VcsCalls(old(transients), now, probe)
    {
      isVcs := GetTransient(transients, VcsTransient, now);
      calls := calls + [TransientRead(VcsTransient)];
      if isVcs == Bool(false) {
        calls := calls + [VcsProbe];
        var probed := Strval(probe);
        if !ToBool(Str(probed)) {
          probed := "0";
        }
        isVcs := Str(probed);
        transients := transients[VcsTransient := Transient(isVcs, Some(now + DayInSeconds))];
        calls := calls + [TransientWrite(VcsTransient, isVcs, DayInSeconds)];
        assert calls == old(calls) + [TransientRead(VcsTransient), VcsProbe, TransientWrite(VcsTransient, isVcs, DayInSeconds)];
      }
    }

    /**
     * `jetpack_json_api_get_site_updates`: a subsite stores an empty array
     * and consults nothing else; the main site assembles the snapshot and
     * writes it as the one and only option write, replacing the old value.
     */
    method GetSiteUpdates(host: Host, now: int)
      modifies this
      ensures !host.isMainSite ==>
                && options == old(options)[UpdatesOption := Arr(map[])]
                && transients == old(transients)
                && calls == old(calls) + [MainSiteQuery, OptionWrite(UpdatesOption, Arr(map[]))]
      ensures host.isMainSite ==>
                var snapshot := Snapshot(host.counts, host.preferred, VcsAnswer(old(transients), now, host.probe));
                && options == old(options)[UpdatesOption := Arr(snapshot)]
                && transients == VcsCacheAfter(old(transients), now, host.probe)
                && calls == old(calls) + [MainSiteQuery, UpdateDataQuery]
                            + (if CoreUpdateCounted(host.counts) then [PreferredCoreQuery] else [])
                            + VcsCalls(old(transients), now, host.probe)
                            + [OptionWrite(UpdatesOption, Arr(snapshot))]
    {
      calls := calls + [MainSiteQuery];
      if !host.isMainSite {
        options := options[UpdatesOption := Arr(map[])];
        calls := calls + [OptionWrite(UpdatesOption, Arr(map[]))];
        return;
      }

      ghost var store := transients;
      calls := calls + [UpdateDataQuery];
      ghost var queried := calls;
      assert queried == old(calls) + [MainSiteQuery, UpdateDataQuery];
      ghost var lookup := if CoreUpdateCounted(host.counts) then [PreferredCoreQuery] else [];
      var updates: map<string, Value> := map[];
      if host.counts.Some? {
        updates := host.counts.value;
      }

      updates := updates["wp_version" := Null];

      if !EmptyAt(updates, "wordpress") {
        calls := calls + [PreferredCoreQuery];
        var cur := host.preferred;
        if cur.Some? && cur.value.response != Null && cur.value.response == Str("upgrade") {
          updates := updates["wp_update_version" := cur.value.current];
        }
      }

      assert calls == queried + lookup;
      var isVcs := IsVcs(now, host.probe);
      ghost var probed := calls;
      assert probed == queried + lookup + VcsCalls(store, now, host.probe);
      updates := updates["is_vcs" := Bool(ToBool(isVcs))];
      ghost var snapshot := Snapshot(host.counts, host.preferred, VcsAnswer(store, now, host.probe));
      assert updates == snapshot;
      options := options[UpdatesOption := Arr(updates)];
      calls := calls + [OptionWrite(UpdatesOption, Arr(updates))];
      assert calls == probed + [OptionWrite(UpdatesOption, Arr(snapshot))];
    }
  }
}
