/**
 * The permission set of the "limited user" group (group 2 of the users file):
 * every action is allowed, but of the session settings only a fixed table of
 * rate, connection and queueing limits may be read or changed.
 *
 * Setting ids are the `settings_pack` enumerators. Their numeric values are
 * assigned by libtorrent's settings_pack.hpp, which is not part of this model;
 * the constants below are distinct stand-ins in the ranges that header reserves
 * for integer settings (from 0x4000) and boolean settings (from 0x8000). No
 * proof depends on the values beyond their being distinct and non-negative.
 */
module LimitedUser {

  const IntTypeBase := 0x4000
  const BoolTypeBase := 0x8000

  const UploadRateLimit := IntTypeBase + 94
  const DownloadRateLimit := IntTypeBase + 95
  const UnchokeSlotsLimit := IntTypeBase + 99
  const DhtUploadRateLimit := IntTypeBase + 98
  const ConnectionsLimit := IntTypeBase + 101
  const ShareRatioLimit := IntTypeBase + 72
  const SeedTimeRatioLimit := IntTypeBase + 73
  const SeedTimeLimit := IntTypeBase + 74
  const ActiveDownloads := IntTypeBase + 65
  const ActiveSeeds := IntTypeBase + 66
  const AutoManagePreferSeeds := BoolTypeBase + 26
  const CacheSize := IntTypeBase + 33

  /** The `allowed_settings` table, in its source order. */
  const AllowedSettings: seq<int> := [
    UploadRateLimit, DownloadRateLimit, UnchokeSlotsLimit, DhtUploadRateLimit,
    ConnectionsLimit, ShareRatioLimit, SeedTimeRatioLimit, SeedTimeLimit,
    ActiveDownloads, ActiveSeeds, AutoManagePreferSeeds, CacheSize
  ]

  /**
   * `std::find` over `table`: the index of the first element equal to `x`,
   * or `|table|` (the end iterator) when there is none.
   */
  function Find(table: seq<int>, x: int): (k: nat)
    ensures k <= |table|
    ensures k < |table| ==> table[k] == x
    ensures forall j :: 0 <= j < k ==> table[j] != x
    ensures k == |table| <==> x !in table
  {
    if table == [] then 0
    else if table[0] == x then 0
    else 1 + Find(table[1..], x)
  }

  /**
   * `limited_user::allow_settings`: negative ids (settings that have no
   * libtorrent counterpart) are refused, and so is every id the table lacks.
   */
  function AllowSettings(name: int): (allowed: bool)
    ensures allowed <==> 0 <= name && name in AllowedSettings
  {
    if name < 0 then false
    else if Find(AllowedSettings, name) == |AllowedSettings| then false
    else true
  }

  /** `allow_get_settings` delegates to the same test. */
  function AllowGetSettings(name: int): (allowed: bool)
    ensures allowed <==> 0 <= name && name in AllowedSettings
  {
    AllowSettings(name)
  }

  /** `allow_set_settings` delegates to the same test. */
  function AllowSetSettings(name: int): (allowed: bool)
    ensures allowed <==> 0 <= name && name in AllowedSettings
  {
    AllowSettings(name)
  }

  /** The table holds twelve distinct, non-negative ids. */
  lemma AllowedSettingsTable()
    ensures |AllowedSettings| == 12
    ensures forall i, j :: 0 <= i < j < |AllowedSettings| ==> AllowedSettings[i] != AllowedSettings[j]
    ensures forall i :: 0 <= i < |AllowedSettings| ==> AllowedSettings[i] >= 0
  {
  }

  /** Reading and writing a setting are always permitted or refused together. */
  lemma GetAndSetAgree(name: int)
    ensures AllowGetSettings(name) == AllowSetSettings(name) == AllowSettings(name)
  {
  }

  /** Each of the twelve listed settings is permitted; a negative id never is. */
  lemma ListedSettingsAllowed(k: nat)
    requires k < |AllowedSettings|
    ensures AllowSettings(AllowedSettings[k])
    ensures !AllowSettings(-1 - k)
  {
  }

  /** Every negative name is refused, whatever the table holds. */
  lemma NegativeRefused(name: int)
    requires name < 0
    ensures !AllowSettings(name)
    ensures !AllowGetSettings(name) && !AllowSetSettings(name)
  {
  }
}
