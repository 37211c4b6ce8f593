/**
 * The preferences the service reads. The store is live: each read of it is
 * modelled by passing the snapshot of its contents at that moment.
 */
module Preferences {

  /** The stored per-indicator visibility keys. */
  datatype IconKey =
    | SignalKey | DataKey | CarrierKey | RoamingKey | WifiKey | BluetoothKey
    | RingerKey | LanguageKey | BatteryPercentKey | BatteryKey | TimeKey

  /**
   * The values the service reads. `iconKeys` is the list of keys the
   * preferences class enumerates; `icons` holds the stored values, a missing
   * key reading as true.
   */
  datatype Snapshot = Snapshot(
    backgroundColor: int,
    iconColor: int,
    iconKeys: seq<IconKey>,
    icons: map<IconKey, bool>,
    dropEnabled: bool,
    swipeEnabled: bool,
    dropDuration: int,
    usingBlacklist: bool,
    expandDisabled: bool)

  /** The stored visibility of one indicator, true when nothing is stored. */
  function IconEnabled(p: Snapshot, k: IconKey): bool {
    if k in p.icons then p.icons[k] else true
  }

  /**
   * The settings screen forces swipe on whenever it turns drop off; the service
   * itself never enforces this, so it is only ever an assumption about a snapshot.
   */
  predicate SettingsConsistent(p: Snapshot) {
    !p.dropEnabled ==> p.swipeEnabled
  }
}
