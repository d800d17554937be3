/**
 * The legacy active-platform service (src/scripts/services/dimPlatformService.factory.js):
 * the list of the player's platforms, the active one, and the platform type
 * remembered by the sync service.
 */
module DimPlatformService {
  import opened Wrappers

  /** One platform account of the player. */
  datatype Platform = Platform(id: string, platformType: int, displayName: string)

  datatype BungieAccount = BungieAccount(membershipId: string)

  /** What the sync service answers; `platformType` is absent when nothing was remembered. */
  datatype SyncData = SyncData(platformType: Option<int>)

  /** An error handed to `reportBadPlatform` by its caller. */
  datatype ServiceError = ServiceError(message: string)

  /**
   * What `reportBadPlatform` throws: the caller's error, or the TypeError
   * raised when the filtered list is empty and `setActive(undefined)` reads
   * `undefined.platformType`.
   */
  datatype Thrown = Rethrown(error: ServiceError) | PlatformOfUndefined

  // ---------------------------------------------------------------------------
  // The selection rule
  // ---------------------------------------------------------------------------

  /** `data && data.platformType` when truthy: the number 0 counts as nothing remembered. */
  function RememberedType(data: Option<SyncData>): Option<int> {
    if data.Some? && data.value.platformType.Some? && data.value.platformType.value != 0
    then data.value.platformType
    else None
  }

  /** `_.find(platforms, { id })` is truthy: some platform has that id. */
  function HasId(platforms: seq<Platform>, id: string): (found: bool)
    ensures found <==> exists i :: 0 <= i < |platforms| && platforms[i].id == id
  {
    if platforms == [] then false
    else if platforms[0].id == id then true
    else
      var found := HasId(platforms[1..], id);
      assert found ==> exists i :: 0 <= i < |platforms[1..]| && platforms[1..][i].id == id;
      assert found ==> exists i :: 1 <= i < |platforms| && platforms[i].id == id;
      found
  }

  /** `_.find(platforms, p => p.platformType === t)`, as the index of the first match. */
  function FindByType(platforms: seq<Platform>, t: int): (index: Option<nat>)
    ensures index.Some? ==> index.value < |platforms| && platforms[index.value].platformType == t
    ensures index.Some? ==> forall j :: 0 <= j < index.value ==> platforms[j].platformType != t
    ensures index.None? ==> forall j :: 0 <= j < |platforms| ==> platforms[j].platformType != t
  {
    if platforms == [] then None
    else if platforms[0].platformType == t then Some(0)
    else
      match FindByType(platforms[1..], t)
      case None => None
      case Some(i) => Some(i + 1)
  }

  /** The current active platform is kept when its id is still among the platforms. */
  predicate Retains(platforms: seq<Platform>, active: Option<Platform>) {
    active.Some? && exists i :: 0 <= i < |platforms| && platforms[i].id == active.value.id
  }

  /**
   * `getActivePlatform` once the sync service has answered `data`: nothing
   * for an empty list; else the current one when its id is still listed;
   * else the first platform of the remembered type; else the first platform.
   */
  function ChooseActive(platforms: seq<Platform>, active: Option<Platform>, data: Option<SyncData>): (chosen: Option<Platform>)
    ensures chosen.None? <==> platforms == []
    ensures chosen.Some? ==> chosen == active || chosen.value in platforms
    ensures platforms != [] && Retains(platforms, active) ==> chosen == active
    ensures platforms != [] && !Retains(platforms, active) && RememberedType(data).Some?
            && (exists i :: 0 <= i < |platforms| && platforms[i].platformType == RememberedType(data).value) ==>
              exists i :: 0 <= i < |platforms| && chosen == Some(platforms[i])
                && platforms[i].platformType == RememberedType(data).value
                && forall j :: 0 <= j < i ==> platforms[j].platformType != RememberedType(data).value
    ensures platforms != [] && !Retains(platforms, active)
            && (RememberedType(data).None? || forall i :: 0 <= i < |platforms| ==> platforms[i].platformType != RememberedType(data).value) ==>
              chosen == Some(platforms[0])
  {
    if |platforms| == 0 then None
    else if active.Some? && HasId(platforms, active.value.id) then active
    else if RememberedType(data).Some? && FindByType(platforms, RememberedType(data).value).Some? then
      Some(platforms[FindByType(platforms, RememberedType(data).value).value])
    else Some(platforms[0])
  }

  /**
   * Choosing again, with the chosen platform now active, keeps it, whatever
   * the sync service answers the second time.
   */
  lemma ChooseActiveIsStable(platforms: seq<Platform>, active: Option<Platform>, data: Option<SyncData>, later: Option<SyncData>)
    ensures ChooseActive(platforms, ChooseActive(platforms, active, data), later) == ChooseActive(platforms, active, data)
  {
  }

  // ---------------------------------------------------------------------------
  // Removing a platform
  // ---------------------------------------------------------------------------

  /** `platforms.filter(p => p !== platform)`, with platforms compared as values. */
  function Without(platforms: seq<Platform>, platform: Platform): (rest: seq<Platform>)
    ensures |rest| <= |platforms|
    ensures forall q :: q in rest <==> q in platforms && q != platform
  {
    if platforms == [] then []
    else
      var tail := Without(platforms[1..], platform);
      assert platforms == [platforms[0]] + platforms[1..];
      if platforms[0] == platform then tail else [platforms[0]] + tail
  }

  /** Every occurrence of the platform goes, and nothing else does. */
  lemma {:induction false} WithoutCounts(platforms: seq<Platform>, platform: Platform)
    ensures multiset(Without(platforms, platform)) == multiset(platforms)[platform := 0]
    ensures |Without(platforms, platform)| == |platforms| - multiset(platforms)[platform]
  {
    if platforms != [] {
      WithoutCounts(platforms[1..], platform);
      assert platforms == [platforms[0]] + platforms[1..];
    }
  }

  /** Filtering works piece by piece, so the platforms that remain keep their order. */
  lemma {:induction false} WithoutKeepsOrder(front: seq<Platform>, back: seq<Platform>, platform: Platform)
    ensures Without(front + back, platform) == Without(front, platform) + Without(back, platform)
  {
    if front == [] {
      assert front + back == back;
    } else {
      var whole := front + back;
      assert whole[0] == front[0] && whole[1..] == front[1..] + back;
      WithoutKeepsOrder(front[1..], back, platform);
      if front[0] == platform {
        assert Without(whole, platform) == Without(whole[1..], platform);
        assert Without(front, platform) == Without(front[1..], platform);
      } else {
        assert Without(whole, platform) == [front[0]] + Without(whole[1..], platform);
        assert Without(front, platform) == [front[0]] + Without(front[1..], platform);
      }
    }
  }

  /** Platforms listed at most once each lose exactly one entry when a listed one is removed. */
  lemma {:induction false} WithoutDistinct(platforms: seq<Platform>, platform: Platform)
    requires forall i, j :: 0 <= i < j < |platforms| ==> platforms[i] != platforms[j]
    ensures |Without(platforms, platform)| == |platforms| - (if platform in platforms then 1 else 0)
  {
    if platforms != [] {
      WithoutDistinct(platforms[1..], platform);
      if platforms[0] == platform {
        forall j | 0 <= j < |platforms[1..]|
          ensures platforms[1..][j] != platform
        {
          assert platforms[1..][j] == platforms[j + 1];
        }
      }
    }
  }

  // ---------------------------------------------------------------------------
  // The service
  // ---------------------------------------------------------------------------

  class PlatformService {
    /** `_platforms`: the player's platforms as last fetched. */
    var platforms: seq<Platform>
    /** `_active`: the active platform, `None` for `null` or `undefined`. */
    var active: Option<Platform>
    /** The `platformType` key of the sync service, as this service last wrote it. */
    ghost var storedPlatformType: Option<int>

    /** A fresh service; `stored` is what the sync service already holds. */
    constructor (ghost stored: Option<int>)
      ensures platforms == [] && active == None && storedPlatformType == stored
    {
      platforms := [];
      active := None;
      storedPlatformType := stored;
    }

    /** `getActive`. */
    function GetActive(): Option<Platform>
      reads this
    {
      active
    }

    /** `getActivePlatform`: the choice made on the current state once `data` has been read. */
    function GetActivePlatform(data: Option<SyncData>): (chosen: Option<Platform>)
      reads this
      ensures chosen.None? <==> platforms == []
      ensures chosen.Some? ==> chosen == active || chosen.value in platforms
    {
      ChooseActive(platforms, active, data)
    }

    /** `setActive`: makes `platform` active and remembers its type, or forgets it for `null`. */
    method SetActive(platform: Option<Platform>)
      modifies this
      ensures GetActive() == platform
      ensures platforms == old(platforms)
      ensures storedPlatformType == if platform.None? then None else Some(platform.value.platformType)
    {
      active := platform;
      if platform.None? {
        storedPlatformType := None;
      } else {
        storedPlatformType := Some(platform.value.platformType);
      }
    }

    /**
     * `reportBadPlatform`: with more than one platform, drops every entry equal
     * to `platform` and activates the new first one; otherwise rethrows `e`.
     */
    method ReportBadPlatform(platform: Platform, e: ServiceError) returns (thrown: Option<Thrown>)
      modifies this
      ensures old(|platforms|) <= 1 ==>
        thrown == Some(Rethrown(e)) && platforms == old(platforms) && active == old(active)
        && storedPlatformType == old(storedPlatformType)
      ensures old(|platforms|) > 1 ==> platforms == Without(old(platforms), platform)
      ensures old(|platforms|) > 1 && platforms != [] ==>
        thrown.None? && GetActive() == Some(platforms[0]) && storedPlatformType == Some(platforms[0].platformType)
      ensures old(|platforms|) > 1 && platforms == [] ==>
        thrown == Some(PlatformOfUndefined) && GetActive().None? && storedPlatformType == old(storedPlatformType)
    {
      if |platforms| > 1 {
        platforms := Without(platforms, platform);
        if platforms == [] {
          active := None;
          thrown := Some(PlatformOfUndefined);
        } else {
          SetActive(Some(platforms[0]));
          thrown := None;
        }
      } else {
        thrown := Some(Rethrown(e));
      }
    }

    /**
     * `getPlatforms` once its requests have answered: `bungieAccounts` are the
     * player's accounts and `destinyAccountsFor` the account service's answer
     * for a membership id. The list is replaced wholesale, then the active
     * platform is chosen against the new list and set.
     */
    method GetPlatforms(bungieAccounts: seq<BungieAccount>, destinyAccountsFor: string -> seq<Platform>,
                        data: Option<SyncData>) returns (accounts: seq<Platform>)
      modifies this
      ensures platforms == if bungieAccounts == [] then [] else destinyAccountsFor(bungieAccounts[0].membershipId)
      ensures active == ChooseActive(platforms, old(active), data)
      ensures storedPlatformType == if active.None? then None else Some(active.value.platformType)
      ensures accounts == platforms
    {
      var fetched := if |bungieAccounts| == 0 then [] else destinyAccountsFor(bungieAccounts[0].membershipId);
      platforms := fetched;
      var chosen := GetActivePlatform(data);
      SetActive(chosen);
      accounts := platforms;
    }
  }

  /**
   * Fetching twice with the same account answers leaves the active platform
   * where the first fetch put it. The sync service's second answer `later` is
   * free: in the source it is the type the first fetch's `setActive` wrote,
   * and the active platform stays put whatever it is.
   */
  method RefetchKeepsActive(service: PlatformService, bungieAccounts: seq<BungieAccount>,
                            destinyAccountsFor: string -> seq<Platform>, data: Option<SyncData>,
                            later: Option<SyncData>)
    modifies service
    ensures service.active == old(ChooseActive(
      if bungieAccounts == [] then [] else destinyAccountsFor(bungieAccounts[0].membershipId),
      service.active, data))
    ensures service.storedPlatformType == if service.active.None? then None else Some(service.active.value.platformType)
  {
    var first := service.GetPlatforms(bungieAccounts, destinyAccountsFor, data);
    var second := service.GetPlatforms(bungieAccounts, destinyAccountsFor, later);
    ChooseActiveIsStable(first, old(service.active), data, later);
  }
}
